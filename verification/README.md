# Upgrades plugins for TronBox and Hardhat: a Dafny model

The project models the parts of the two OpenZeppelin upgrades plugins for TRON whose correctness does
not show in any one function body, and proves what they promise.

**The operation engine of the TronBox plugin.** Operations (deploy a proxy, a beacon or a beacon
proxy, upgrade a proxy or a beacon, adopt an existing contract) are step machines over two shared
stores, the chain and the deployment record (`World`, `Operations`). Each step takes one answer of the
node, the host or the engine, and any answer is allowed. `Safety` runs any number of them in any
interleaving, cut anywhere, with transactions landing late, reverting or never landing, foreign
deployments and owners changing; `Provenance` traces every transaction, every swap and every record of such a run to
the operation behind it (`Outcomes` is what one operation knows on its way), and `InVain` shows what comes
of an upgrade for every kind of target. `Exits` follows one operation to its end while transactions land, contracts
appear and the engine drops entries.
`Serialize` is the per-deployer mutex with its promise tails; `Upgrades` and `Succession` put the step
machines under it, and `LateLanding` shows why the guarantee asks for final transactions. `WriteBacks`
and `Pipelines` are the operations in the form they run, with methods that update the stores and the
artifact write-backs in place; each pipeline is tied to the step machine. `Queue` is the owned promise
over the host's migration chain.

**The trust path for chain facts.** `Rpc` goes from a transport's answer to a value of the right
shape; `Slots` and `Readers` read ERC-1967 slots, code and beacons; `AbiString` decodes an ABI string;
`Fingerprint` reads and compares chain instances; `Address` mints the canonical address and
`RecordMigration` brings stored addresses to it.

**The agreement machinery.** `Resolve` and `CompilerVersion` resolve the environment from two config
lineages; `Ambiguity` is the build-info index; `Capture` and `Channel` relay engine warnings;
`HardhatManifest` and `NamespacedCache` are the Hardhat plugin's manifest and recompile cache, and
`NamespacePrefix` its slot-collision scan.

Opaque identities (addresses on chain, code, layouts, transactions) are natural numbers; a version is
code together with constructor arguments, so one address can be stored under two versions. The
storage report of an operation is the set of stored layouts it accepts, because the caller's options
change the report. What is read off the network, the file system and the engine is a parameter.

The results rest on these facts about the surroundings, each of which is a visible guard of the model:

- a proxy or a beacon changes its implementation only through a call that `World.Executes` obeys: a
  ProxyAdmin obeys its owner, a proxy its own admin, a UUPS implementation the owner of its proxy, a beacon
  its owner, and any other contract nobody; each refuses an implementation without code, a UUPS one also an
  implementation that is not;
- owners can change at any time; a proxy's admin slot does not, and its ProxyAdmin is of its generation;
- the engine drops a record entry only when none of its addresses has code;
- a new contract gets an address that nothing has, nothing sent creates and no stored deployment waits for;
- for the upgrade guarantee: one deployer, and every transaction final when its operation returns;
- the user's contract and the proxy or beacon abstraction are different objects (the user's contract is
  restored on a failure even when they are not);
- the checksum changes only the case of letters, and base58 text decodes to the address it was made from;
- build-info ids are content hashes and compiling is deterministic.

Where the code differs from its own documentation, the model follows the code:

- `proxy/upgrade-proxy.ts:141-143` says a mis-routed proxy fails without leaving an orphan implementation.
  The pipeline asks for the admin slot and a version, not for what is at the slot, who owns it, or whether
  the implementations are UUPS ones. `Safety.CallIsObeyedIff` gives the exact condition,
  `InVain.UpgradeSucceedsIff` a run for every target, and `InVain.FailingInputs` an input for each clause.
- `environment/ambiguity.ts:308-309` calls the ordering fully determined. For a name it is exactly when the
  host's collation tells its candidates of different files apart: `Ambiguity.AnswersIgnoreFileOrderIff`, with
  an input where it is not in `Ambiguity.TiedFileNamesSwap`.

## Model

| member | source | states |
|---|---|---|
| Serialize.RunKeepsInv | packages/tronbox-upgrades/src/deploy/serialize.ts:30-75 | In every reachable state, for any issue pattern, each call chains behind the latest earlier call on its deployer, starts only after it, and a body can only be awaited by the call that made it. |
| Serialize.MutualExclusion | packages/tronbox-upgrades/src/deploy/serialize.ts:58-74 | At most one operation body per deployer is active, and a later one has not started until every earlier one on that deployer settled. |
| Serialize.FailureReachesOnlyItsCaller | packages/tronbox-upgrades/src/deploy/serialize.ts:63-74 | A rejection reaching a caller was thrown by that caller's own body. |
| Serialize.RefusedIffInsideKeyedBody | packages/tronbox-upgrades/src/deploy/serialize.ts:35-57 | A call is refused exactly when it is made inside a keyed body, and a refused or keyless call leaves every tail as it was. |
| Serialize.WaitsGoDown | packages/tronbox-upgrades/src/deploy/serialize.ts:36-52 | Every wait goes down in an explicit rank, so waits never form a cycle; a keyed call waits only for an earlier call on its own deployer. |
| Serialize.SomeoneCanMove | packages/tronbox-upgrades/src/deploy/serialize.ts:30-75 | While any accepted call is unsettled, some call can start or settle now. |
| Serialize.NoDeadlock | packages/tronbox-upgrades/src/deploy/serialize.ts:30-75 | Deadlock freedom with an explicit measure: every sequence of starts and settlements is bounded, and one that cannot be extended has settled every accepted call. |
| Serialize.Serializer.SerializeOperation | packages/tronbox-upgrades/src/deploy/serialize.ts:30-75 | The new calls and tails, and the reply, as the step function says; the invariant is kept. |
| Serialize.Serializer.TailSettled | packages/tronbox-upgrades/src/deploy/serialize.ts:58-62 | Once the tail has settled, fulfilled or rejected, the waiting body runs. |
| Serialize.Serializer.BodySettled | packages/tronbox-upgrades/src/deploy/serialize.ts:67-74 | A settled body settles its own call only. |
| World.MineIsSafe | packages/tronbox-upgrades/src/proxy/upgrade-proxy.ts:185-203 | A transaction landing at any time, or reverting, keeps every sent call and every recorded proxy on a stored implementation. |
| World.StoreIsSafe | packages/tronbox-upgrades/src/adopt/index.ts:182-190 | Storing or merging an implementation keeps both stores sound, the record truthful, and every baseline it already answered for. |
| Safety.AdvanceIsSafe | packages/tronbox-upgrades/src/proxy/deploy-proxy.ts:84-348 | Every step of every operation, whatever the node, host and engine answer, keeps the chain and the record sound and only adds to them. |
| Safety.RunKeepsInv | packages/tronbox-upgrades/src/adopt/index.ts:182-206 | The soundness of both stores over every interleaving of operations, late transactions, late implementations and foreign deployments. |
| Safety.RecordedProxiesHaveStoredLayouts | packages/tronbox-upgrades/src/adopt/index.ts:192-206 | Over every run, each transparent or UUPS proxy in the record points at an implementation with code whose layout is stored. |
| Safety.RecordedKindsFit | packages/tronbox-upgrades/src/proxy/upgrade-proxy.ts:206-221 | Over every run, whatever is in the record exists and is of its recorded kind: transparent only with an admin, beacon only if it is a beacon proxy, uups only without an admin, or else a UUPS call to it landed although it has one. |
| Safety.RecordTellsTheTruth | packages/tronbox-upgrades/src/adopt/index.ts:117-190 | Over every run, an address an entry of the record answers for, once it has code, has the code of that entry's version. |
| Safety.SentCallsAreObeyedIff | packages/tronbox-upgrades/src/proxy/toolkit.ts:1211-1242 | Over every run, at any moment, a sent upgrade call would repoint its target exactly when the target accepts it as things stand and the contract asked has the entry point. |
| Safety.CallsLandIff | packages/tronbox-upgrades/src/proxy/upgrade-proxy.ts:185-191 | Mining a pending upgrade call lands it exactly under that condition, when the node does not fail it; otherwise it is reverted and the chain stays as it was. |
| Provenance.LandedCallsWereAccepted | packages/tronbox-upgrades/src/proxy/upgrade-proxy.ts:168-203 | Over every run, each upgrade call that has landed was accepted by its target when it was mined. |
| Safety.CreationsAcceptTheirOwner | packages/tronbox-upgrades/src/proxy/deploy-proxy.ts:205-265 | What a creation puts on chain accepts upgrades from the owner the creation was given. |
| InVain.UpgradeSucceedsIff | packages/tronbox-upgrades/src/proxy/upgrade-proxy.ts:113-221 | For every target the pipeline has nothing to say against, a run: if the target accepts, it runs the new implementation; otherwise the call is reverted, nothing is recorded, and the new implementation is left on chain. |
| InVain.FailingInputs | packages/tronbox-upgrades/src/proxy/upgrade-proxy.ts:141-166 | An input for each way a target does not accept: a foreign ProxyAdmin, an account or another contract at the admin slot, an implementation or a successor without entry points, a foreign owner of proxy or beacon, a proxy with an admin taken for a UUPS one. |
| InVain.RecordChangesPastTheAdmin | packages/tronbox-upgrades/src/adopt/index.ts:165-206 | A run in which a UUPS upgrade past an admin lands, is recorded as uups, and an adoption then changes the record. |
| Safety.SentTransactionsNameStoredImplementations | packages/tronbox-upgrades/src/proxy/upgrade-proxy.ts:168-183 | Every transaction ever sent names an implementation the record already holds. |
| Safety.FailedCreationsNameWhatIsLive | packages/tronbox-upgrades/src/proxy/deploy-proxy.ts:265-308 | A creation that failed once its transaction was known reports a mined revert, or names the address its transaction creates, or the live proxy or beacon it created. |
| Provenance.EveryTransactionIsAccountedFor | packages/tronbox-upgrades/src/proxy/upgrade-proxy.ts:168-191 | Every transaction ever sent has one sender among the operations, which it fits and whose contract's code it carries; nothing reports it exactly when that operation ended because the host threw after broadcasting, or because the record could not be read after. |
| Exits.TurnIsSafe | packages/tronbox-upgrades/src/proxy/upgrade-proxy.ts:85-228 | One await of an operation, with transactions landing, contracts appearing and entries dropped meanwhile, keeps what the operation relies on. |
| Exits.PlayIsSafe | packages/tronbox-upgrades/src/proxy/upgrade-proxy.ts:85-228 | Every operation ends, keeps both stores sound, and what it reports at its end is true of them. |
| Exits.EveryStepShortens | packages/tronbox-upgrades/src/proxy/upgrade-proxy.ts:85-228 | Each step strictly shortens what is left of an operation. |
| Exits.RefusalChangesNothing | packages/tronbox-upgrades/src/proxy/deploy-proxy.ts:89-241 | An operation that ends in a refusal before its queued step has changed neither the chain nor the record: only what others did remains. |
| Exits.AtMostOneFittingTransaction | packages/tronbox-upgrades/src/proxy/upgrade-proxy.ts:168-183 | Over its whole run an operation sends at most one transaction, the creation of its kind or a call that repoints the named target, whose stored layout its own storage report accepted, and that calls the new implementation exactly when call data was given; a creation is sent only as asked: its kind, an owner exactly where one is needed, no switched-off initializer. |
| Provenance.SuccessIsTrue | packages/tronbox-upgrades/src/proxy/deploy-proxy.ts:249-345 | Over every run, beside any other operations: a reported success names a landed transaction that carries the reported implementation, whose code is that of the contract given; its proxy is in the record under the kind it was created or upgraded as (or was upgraded past its admin), and an adoption left an implementation stored whose code is the artifact's and a proxy recorded as its own admin slot says. |
| Provenance.BeaconRunsWhatWasReported | packages/tronbox-upgrades/src/beacon/index.ts:381-394 | The step in which a beacon upgrade succeeds leaves the beacon running what it reports. |
| Provenance.NoRecordBeforeConfirmation | packages/tronbox-upgrades/src/proxy/deploy-proxy.ts:276-308 | Over every run, each proxy record was written by an operation whose own transaction for it had landed, or by an adoption of it once its implementation was stored. |
| Provenance.RecordsChangeOnlyIfBypassed | packages/tronbox-upgrades/src/adopt/index.ts:165-206 | Over every run, a proxy record once written is never removed, and changes, whatever other operations write, only if a UUPS call to the proxy landed although it has an admin. |
| Upgrades.RunKeepsInv | packages/tronbox-upgrades/src/proxy/upgrade-proxy.ts:113-203 | Under the mutex with final transactions, every baseline an operation in flight holds is still the live one. |
| Upgrades.LiveWhenSent | packages/tronbox-upgrades/src/proxy/upgrade-proxy.ts:131-183 | When an upgrade call is sent, the implementation live behind its target is exactly the one compared, and nothing is pending. |
| Upgrades.ObeyedWhenSentIff | packages/tronbox-upgrades/src/proxy/upgrade-proxy.ts:144-183 | Under the mutex, when an upgrade call is sent its target obeys it exactly when it accepts it: the version that was probed still holds, but for an admin that had no code then. |
| Upgrades.WhatWasComparedIsWhatIsReplaced | packages/tronbox-upgrades/src/proxy/upgrade-proxy.ts:113-203 | Every swap of a live implementation replaced the implementation whose stored layout was compared and accepted. |
| Succession.RunKeepsFaithful | packages/tronbox-upgrades/src/proxy/upgrade-proxy.ts:113-203 | The log of swaps is a chain: each live implementation is the one its latest swap installed. |
| Succession.GuardedRunIsARun | packages/tronbox-upgrades/src/deploy/serialize.ts:30-75 | Every run under the mutex is a run of the unguarded system. |
| Succession.SwapIsCompatible | packages/tronbox-upgrades/src/proxy/upgrade-proxy.ts:113-203 | Each swap was made by an upgrade of that address whose storage report accepted a layout stored for the very code it removed, and what it installed is the code of the contract that upgrade was given. |
| Succession.SuccessiveImplementationsAreCompatible | packages/tronbox-upgrades/src/proxy/upgrade-proxy.ts:131-139 | Of two successive swaps at one address the second removes what the first installed, and the two implementations are storage-compatible: the report for the code of the second accepted a layout stored for the code of the first. |
| Succession.GuardedOutcomes | packages/tronbox-upgrades/src/deploy/serialize.ts:30-75 | The truth of a success and of the proxy records, over every run under the mutex. |
| LateLanding.FinalityIsNeeded | packages/tronbox-upgrades/src/proxy/upgrade-proxy.ts:185-191 | A concrete run in which an upgrade returns with its call still pending, and the next upgrade then replaces an implementation it never compared. |
| Dispatch.DispatchFitsGeneration | packages/tronbox-upgrades/src/proxy/dispatch.ts:52-77 | A plan is refused exactly for an unknown generation; otherwise the call sent, executed by the contract the probe found, repoints that proxy to that implementation, calling into it exactly when the caller gave call data. |
| Safety.CallIsObeyedIff | packages/tronbox-upgrades/src/proxy/upgrade-proxy.ts:144-166 | While the plan is the one for what the probe finds, the call is obeyed exactly when the target accepts it: by the admin slot, the contract there and its owner; or the proxy's admin or owner and the entry points of both implementations; or the beacon's owner. All of it can be read before the call. |
| Outcomes.FetchedIsCompiled | packages/tronbox-upgrades/src/proxy/toolkit.ts:889-975 | Reused or deployed, the implementation fetched runs the code that was asked for. |
| WriteBacks.Abstraction.AssignDeployed | packages/tronbox-upgrades/src/proxy/toolkit.ts:1031-1056 | Assigning the address creates the per-network entry, and both write-back fields read back. |
| WriteBacks.Abstraction.RestoreWriteBack | packages/tronbox-upgrades/src/proxy/toolkit.ts:447-486 | The restore is exact, unless a hash without an address must go back on an abstraction with no entry. |
| WriteBacks.Abstraction.RestorableLater | packages/tronbox-upgrades/src/proxy/toolkit.ts:409-417 | What was read off an abstraction can be put back exactly as long as its entry survives. |
| Pipelines.FetchImplementation | packages/tronbox-upgrades/src/proxy/toolkit.ts:889-975 | Reuse, or deploy and store under the record's lock; the user's artifact is left alone by a reuse and names the implementation after a deploy. |
| Pipelines.RestoreOnFailure | packages/tronbox-upgrades/src/proxy/toolkit.ts:505-516 | A failing exit gives the contract its entry write-back; a success leaves it. |
| Pipelines.SettleCreation | packages/tronbox-upgrades/src/beacon/index.ts:159-187 | The creation's own write-back is undone on a revert only, and kept on every other verdict and later failure. |
| Pipelines.CreationStep | packages/tronbox-upgrades/src/proxy/deploy-proxy.ts:249-310 | On every failing exit of the compound step re-reading the user's contract gives its entry write-back; the shell names what its transaction created, or its entry write-back after a revert. |
| Pipelines.JudgeKind | packages/tronbox-upgrades/src/proxy/deploy-proxy.ts:121-183 | The kind and the refusals that hang on it, the missing deployer and the replay report, in the order of the source. |
| Pipelines.CheckDeployProxy | packages/tronbox-upgrades/src/proxy/deploy-proxy.ts:168-235 | The record's word on a prior implementation, then the refusals that need no chain, in the order of the source. |
| Pipelines.RunDeployProxy | packages/tronbox-upgrades/src/proxy/deploy-proxy.ts:84-345 | The pipeline is the step machine's run; a success makes the user's contract name the proxy and its transaction, never the implementation, and a failure leaves the write-back it came with. |
| Pipelines.RunDeployBeacon | packages/tronbox-upgrades/src/beacon/index.ts:190-260 | The same for a beacon: a failure restores the user's contract, the beacon's own write-back follows the verdict. |
| Pipelines.RunDeployBeaconProxy | packages/tronbox-upgrades/src/beacon/index.ts:277-325 | The beacon is checked first; only the shell's write-back is touched, and it follows the verdict. |
| Pipelines.RunUpgradeProxy | packages/tronbox-upgrades/src/proxy/upgrade-proxy.ts:85-228 | The pipeline is the step machine's run; a failing exit leaves the user's write-back, a success leaves it or the new implementation's. |
| Pipelines.CompareStorage | packages/tronbox-upgrades/src/proxy/upgrade-proxy.ts:131-139 | What is compared is the layout stored for the implementation the chain named. |
| Pipelines.VerifyUpgrade | packages/tronbox-upgrades/src/proxy/upgrade-proxy.ts:193-221 | The slot is read back, and a proxy is recorded only when none was. |
| Pipelines.RunUpgradeBeacon | packages/tronbox-upgrades/src/beacon/index.ts:350-414 | The same rule for a beacon upgrade. |
| Pipelines.RunForceImport | packages/tronbox-upgrades/src/adopt/index.ts:58-215 | Classification, code verification and the conflict read come before both writes, and the layout is stored before the proxy is recorded. |
| Pipelines.RerunIsNeverStale | packages/tronbox-upgrades/src/proxy/deploy-proxy.ts:160-186 | If the replay decision accepted the address the contract named, it accepts the one the contract names after any exit. |
| Queue.DriveIsExpected | packages/tronbox-upgrades/src/deploy/queue.ts:76-123 | For every chain of user and plugin steps, the code that runs, the chain's state and every settlement are the expected ones. |
| Queue.SettlesExactlyOnce | packages/tronbox-upgrades/src/deploy/queue.ts:80-91 | An owned promise settles exactly once, never only for a skipped step of a host whose chain has no catch, and the settled-twice error is never delivered. |
| Queue.RunsIffNothingFailed | packages/tronbox-upgrades/src/deploy/queue.ts:100-121 | A plugin step runs iff no earlier user step failed; otherwise its promise rejects with that failure. |
| Queue.PluginLinksAreInvisible | packages/tronbox-upgrades/src/deploy/queue.ts:100-121 | Erasing the plugin links changes neither the user code that runs nor the chain's final state. |
| Queue.PostStartSettles | packages/tronbox-upgrades/src/deploy/queue.ts:92-99 | On the post-start arm a step always runs and its promise settles with its own outcome. |
| Queue.QueuedStep.RunWrapper | packages/tronbox-upgrades/src/deploy/queue.ts:92-99 | The wrapper settles an unsettled promise once, with its own outcome, and leaves the host chain fulfilled. |
| Queue.QueuedStep.RunCatch | packages/tronbox-upgrades/src/deploy/queue.ts:115-121 | The rejection handler settles a skipped promise with the failure, leaves a settled one alone, and rethrows. |
| Queue.RunMigration | packages/tronbox-upgrades/src/deploy/queue.ts:76-123 | Driving the chain settles every promise as expected and ends as the user steps say. |
| AbiString.Utf8Decodes | packages/tronbox-upgrades/src/chain/read.ts:378-392 | The decoder answers a string exactly when its UTF-8 encoding (section 3 of RFC 3629) is those bytes. |
| AbiString.DecodesExactly | packages/tronbox-upgrades/src/chain/read.ts:351-393 | Exact on all validated hex: two words, offset 32, whole bytes, and the UTF-8 encoding of the answer. |
| AbiString.UndefinedExactly | packages/tronbox-upgrades/src/chain/read.ts:351-393 | Undefined exactly when there are too few words, another offset, half a byte, or bytes no string encodes to. |
| AbiString.RoundingIsHarmless | packages/tronbox-upgrades/src/chain/read.ts:356-368 | Reading the head words as doubles changes nothing. |
| AbiString.RoundTrip | packages/tronbox-upgrades/src/chain/read.ts:351-393 | Every string comes back from its own ABI encoding. |
| Address.MintIsCanonical | packages/tronbox-upgrades/src/record/address.ts:162-175 | The mint answers the canonical form of the identity a text names, and mints that form to itself. |
| Address.CanonicalIffFixed | packages/tronbox-upgrades/src/record/address.ts:231-236 | A text is canonical exactly when the mint leaves it as it is. |
| Address.MintsAlike | packages/tronbox-upgrades/src/record/address.ts:162-175 | Two accepted texts mint alike exactly when they name one 20-byte identity. |
| Address.HexSpellings | packages/tronbox-upgrades/src/record/address.ts:92-175 | A hex spelling is accepted exactly when its casing is no claim or a true one, alike with either prefix. |
| Address.ThreeEncodingsAgree | packages/tronbox-upgrades/src/record/address.ts:92-175 | The three encodings of one identity mint to its one canonical form. |
| Address.RenderedFormsMintBack | packages/tronbox-upgrades/src/record/address.ts:268-281 | The TRON hex and base58 renderings of a canonical address mint back to it. |
| RecordMigration.CanonicalizeStoredAddresses | packages/tronbox-upgrades/src/record/manifest.ts:198-241 | The migrated manifest, and both counters: the stored strings that changed and those that name no identity. |
| RecordMigration.Migration.MigrateImpls | packages/tronbox-upgrades/src/record/manifest.ts:218-230 | The implementation entries migrated in key order, with their share of both counters. |
| RecordMigration.ProxyLookupAgrees | packages/tronbox-upgrades/src/record/manifest.ts:173-241 | Exact-match lookup of a canonical address in the migrated proxies finds the same first entry as a scan of the original by identity. |
| RecordMigration.ImplLookupAgrees | packages/tronbox-upgrades/src/record/manifest.ts:173-241 | The same for implementations, under any of their listed addresses. |
| RecordMigration.SecondPassIsSilent | packages/tronbox-upgrades/src/record/manifest.ts:181-185 | A second pass rewrites nothing. |
| RecordMigration.ZeroIffUnchanged | packages/tronbox-upgrades/src/record/manifest.ts:167-171 | No rewrites exactly when the data is unchanged. |
| RecordMigration.OnlyAddressesChange | packages/tronbox-upgrades/src/record/manifest.ts:186-190 | Entry order, keys, counts and every other field survive. |
| RecordMigration.TheMintIsLawful | packages/tronbox-upgrades/src/record/address.ts:218-226 | The record layer's mint is idempotent, which is all the migration needs of it. |
| Fingerprint.ReadSucceedsExactly | packages/tronbox-upgrades/src/chain/instance.ts:165-210 | An instance is read exactly when every answer has its shape, there is a genesis block, and the chain id is, as a number, the last four bytes of its hash. |
| Fingerprint.ReadsAreCanonical | packages/tronbox-upgrades/src/chain/instance.ts:165-210 | A fingerprint that was read is canonical, and its chain id is the last four bytes of its genesis hash. |
| Fingerprint.SelfIsSame | packages/tronbox-upgrades/src/chain/instance.ts:255-305 | An identity compared with its own record is the same instance. |
| Fingerprint.SameIffHashesAgree | packages/tronbox-upgrades/src/chain/instance.ts:255-305 | Two reads compare as the same instance exactly when both whole hashes agree; equal genesis means equal chain id. |
| Fingerprint.CasingIsIgnored | packages/tronbox-upgrades/src/chain/instance.ts:95-109 | Re-casing any recorded value never changes the verdict. |
| Fingerprint.LeadingZerosAreIgnored | packages/tronbox-upgrades/src/chain/instance.ts:94-98 | Leading zeros on a recorded chain id change the verdict exactly when it has no digits of its own. |
| Fingerprint.ErasureOnlyWeakens | packages/tronbox-upgrades/src/chain/instance.ts:255-305 | Missing record fields only weaken a verdict to indeterminate. |
| Fingerprint.AcceptedIdsAreSmall | packages/tronbox-upgrades/src/chain/instance.ts:190-201 | A read chain id is the value of the genesis hash's last eight digits, below 2^32. |
| Fingerprint.ManifestNamesAreInjective | packages/tronbox-upgrades/src/chain/instance.ts:331-346 | Manifest file names tell accepted chain ids apart, whatever double the parse gives. |
| HardhatManifest.RunKeepsInv | packages/hardhat-tron-upgrades/src/utils/manifest.ts:101-131 | Whoever holds the lock holds the file as it is, so every write is a step from the file itself. |
| HardhatManifest.NothingIsLost | packages/hardhat-tron-upgrades/src/utils/manifest.ts:66-132 | Under any interleaving of rewrites and records, with processes dying anywhere, no recorded implementation is lost up to spelling, and every key keeps its primary identity and layout. |
| HardhatManifest.FinishedRecordsAreHeld | packages/hardhat-tron-upgrades/src/utils/manifest.ts:114-132 | A record that finished is in the file from then on. |
| HardhatManifest.CanonicalFilesAreNotRewritten | packages/hardhat-tron-upgrades/src/utils/manifest.ts:101-107 | The rewrite writes only a file that was not canonical when it held the lock. |
| HardhatManifest.RewrittenFilesStayCanonical | packages/hardhat-tron-upgrades/src/utils/manifest.ts:55-107 | Under any interleaving, once any rewrite has finished every stored address has its canonical spelling, and keeps it if what is recorded has it. |
| HardhatManifest.ChecksummedManifests | packages/hardhat-tron-upgrades/src/utils/manifest.ts:66-132 | For the checksummer itself: nothing recorded is lost, primaries stay, and from the first finished rewrite on every address is checksummed. |
| HardhatManifest.RewriteKeeps | packages/hardhat-tron-upgrades/src/utils/manifest.ts:71-99 | Rewriting spellings keeps keys, identities and primaries. |
| HardhatManifest.RecordKeeps | packages/hardhat-tron-upgrades/src/utils/manifest.ts:114-132 | Merging a record keeps everything held and adds the new address. |
| HardhatManifest.FixEntry | packages/hardhat-tron-upgrades/src/utils/manifest.ts:73-93 | One entry rewritten in place: None exactly when the checksummer throws, otherwise whether it changed. |
| HardhatManifest.RewriteInPlace | packages/hardhat-tron-upgrades/src/utils/manifest.ts:71-99 | Every entry of the parsed document migrated in place, and changed exactly when some entry did. |
| NamespacedCache.CacheIsTransparent | packages/hardhat-tron-upgrades/src/utils/namespaced.ts:216-271 | After every history of calls, restarts, and lost or malformed cache files, a call answers what recomputing under its own rule would. |
| NamespacedCache.AnnouncedOnceIffCalledFor | packages/hardhat-tron-upgrades/src/utils/namespaced.ts:76-85 | Each id is announced at most once per process, and exactly when some call of the process asks for it. |
| NamespacedCache.EntrySurvivesDisk | packages/hardhat-tron-upgrades/src/utils/namespaced.ts:41-53 | An entry written to disk is accepted back as itself, unless it has no output. |
| NamespacedCache.Cache.ResolveNamespacedEntry | packages/hardhat-tron-upgrades/src/utils/namespaced.ts:216-244 | Memory over disk over recomputation, and what each leaves behind. |
| NamespacedCache.Cache.GetNamespacedOutput | packages/hardhat-tron-upgrades/src/utils/namespaced.ts:251-271 | The answer is the recomputation's under the caller's current rule. |
| Ambiguity.BuildIndex | packages/tronbox-upgrades/src/environment/ambiguity.ts:311-433 | Complete exactly when every file is usable, and then every name is answered as the naive scan over all triples answers it; otherwise the first unusable file is named. |
| Ambiguity.IndexedIff | packages/tronbox-upgrades/src/environment/ambiguity.ts:299-306 | The index is complete exactly when every file is usable: one bad file makes every answer indeterminate. |
| Ambiguity.IndexIsNaiveScan | packages/tronbox-upgrades/src/environment/ambiguity.ts:396-432 | A complete index answers a name with exactly the triples of that normalized name, each as often, in candidate order. |
| Ambiguity.CollisionsExactly | packages/tronbox-upgrades/src/environment/ambiguity.ts:415-421 | The collisions are exactly the names with two candidates or more. |
| Ambiguity.AnswersIgnoreFileOrderIff | packages/tronbox-upgrades/src/environment/ambiguity.ts:284-309 | Reading the same files in another order changes no answer for a name exactly when no two of its candidates from different files tie in the host's collation. |
| Ambiguity.TiedFileNamesSwap | packages/tronbox-upgrades/src/environment/ambiguity.ts:284-309 | Two files whose names tie in the collation: the answer follows the order they were read in. |
| Ambiguity.NormalizeIsNotIdempotent | packages/tronbox-upgrades/src/environment/ambiguity.ts:254-256 | The name normalization strips once: a second pass can change a name. |
| Ambiguity.SecondPassIff | packages/tronbox-upgrades/src/environment/ambiguity.ts:254-256 | A second pass changes a name exactly when the first left a prefix or suffix to strip. |
| Ambiguity.CheckCoversTheName | packages/tronbox-upgrades/src/environment/artifacts.ts:245-300 | For every name, the collision check looks at exactly the contracts compiled under the name the host is asked for. |
| Ambiguity.SpellingsResolveAlike | packages/tronbox-upgrades/src/environment/artifacts.ts:239-300 | A name and its spellings with a leading ./ or a trailing .sol resolve alike. |
| Ambiguity.RequiredIff | packages/tronbox-upgrades/src/proxy/artifacts.ts:31-73 | A proxy artifact is handed out exactly when the host has one, the index is complete, and all that was compiled under the name is one contract of one source. |
| Ambiguity.ArtifactAccess.Resolve | packages/tronbox-upgrades/src/environment/artifacts.ts:239-330 | An unresolved name never costs an index; the first index built is kept. |
| Channel.RecordedIsExpected | packages/tronbox-upgrades/src/output/channel.ts:178-230 | After n notes: the first hundred in order, and beyond that one statement of how many more. |
| Channel.OutputChannel.Degraded | packages/tronbox-upgrades/src/output/channel.ts:178-215 | A malformed note is refused before anything; the record never depends on silence or on the sink. |
| Capture.RunCaptureWindow | packages/tronbox-upgrades/src/output/engine.ts:371-390 | Whatever the body does, the saved function and the guard are put back and the buffer holds the window's writes. |
| Capture.Flush | packages/tronbox-upgrades/src/output/engine.ts:400-404 | The buffer reaches the channel once, in order, and is drained. |
| Capture.CaptureEngineWarnings | packages/tronbox-upgrades/src/output/engine.ts:441-463 | For every body, nested captures included: console.error is the identical saved value afterwards, the guard is as it was, a refused inner call changes nothing, and each write reaches the channel exactly once. |
| Capture.RunEngineCalls | packages/tronbox-upgrades/src/output/engine.ts:441-463 | What an operation's engine calls record is the first hundred writes and a count of the rest, whatever the silence flags. |
| Resolve.ResolveGroup | packages/tronbox-upgrades/src/environment/resolve.ts:132-220 | Every reachable lineage constructs before anything is compared, and there is a value exactly when they all agree. |
| Resolve.CompareConfigValues | packages/tronbox-upgrades/src/environment/config-lineage.ts:423-441 | The fields reported are exactly those that differ. |
| Resolve.SwapChangesNoValue | packages/tronbox-upgrades/src/environment/resolve.ts:122-131 | Exchanging what the lineages hold changes no value, failure or disagreement of a group. |
| Resolve.SwapChangesNoSettings | packages/tronbox-upgrades/src/environment/compiler.ts:387-425 | Nor which compiler settings are used. |
| Resolve.SettingsResolveExactly | packages/tronbox-upgrades/src/environment/compiler.ts:387-425 | Settings are used exactly when some lineage is reachable and every reachable one holds that very object, copyable, under the key the source names. |
| Resolve.NoLineageIsPreferred | packages/tronbox-upgrades/src/environment/resolve.ts:122-131 | No path, network or compiler value depends on which lineage holds what. |
| Resolve.NoGap | packages/tronbox-upgrades/src/environment/resolve.ts:593-611 | A required slot that is neither built nor diagnosed is part of a disagreement, so the last check finds no gap. |
| Resolve.Resolver.ResolveChain | packages/tronbox-upgrades/src/environment/resolve.ts:407-472 | Both handle names are accepted; two different usable handles are a conflict, never a preference. |
| Resolve.Resolver.CheckPairing | packages/tronbox-upgrades/src/environment/resolve.ts:556-582 | The resolver pairing is checked whenever both lineages are present, whatever was asked for. |
| Resolve.ResolveEnvironment | packages/tronbox-upgrades/src/environment/resolve.ts:236-636 | Exactly when each of the three diagnoses and a result is given: a result has every required slot, and an inconsistency is reported only when nothing required is unsatisfied. |
| Resolve.ResolvedValuesAgree | packages/tronbox-upgrades/src/environment/resolve.ts:189-219 | A built slot's values, the compiler's settings included, are what every reachable lineage holds. |
| Resolve.OptionalSlotsCanDisagree | packages/tronbox-upgrades/src/environment/resolve.ts:281-313 | Optional slots never make an environment incomplete or absent, and turn a result into an inconsistency exactly when the sources disagree about one of them. |
| CompilerVersion.ProjectVersion | packages/tronbox-upgrades/src/environment/compiler.ts:249-320 | The overriding assignments give the documented precedence, and fail exactly when a read throws or the winner is not a string. |
| Rpc.ResultsAreResults | packages/tronbox-upgrades/src/chain/transport.ts:154-226 | A result is read only off an object that has one and carries no error. |
| Rpc.ProbeIff | packages/tronbox-upgrades/src/chain/classify.ts:136-192 | A probe outcome is exactly a revert that says so or an absent contract that says so. |
| Rpc.SendIsSound | packages/tronbox-upgrades/src/chain/provider.ts:80-138 | A value is sent back exactly for a request that reaches the node and is answered by a JSON-RPC result of the method's shape. |
| Rpc.RpcChannel.Exchange | packages/tronbox-upgrades/src/chain/transport.ts:248-280 | Every posted request has a number of its own, and a rejection becomes a named transport failure. |
| Rpc.RpcChannel.SendThrough | packages/tronbox-upgrades/src/chain/provider.ts:80-138 | A refused method or block tag issues no request at all. |
| Slots.LooksLikeIffConverts | packages/tronbox-upgrades/src/chain/slots.ts:217-254 | The address predicate and the conversion agree on every word. |
| Slots.NonEmptyIsNotZero | packages/tronbox-upgrades/src/chain/slots.ts:200-254 | A word that is not empty never carries the zero address. |
| Readers.SlotReadersAreSound | packages/tronbox-upgrades/src/chain/read.ts:116-268 | The slot and code readers answer only when every round trip did. |
| Readers.ProbesAreSound | packages/tronbox-upgrades/src/chain/read.ts:297-469 | The probes too, except that the call itself may be reverted or find no contract. |
| Readers.NoFaultReadsAsAFact | packages/tronbox-upgrades/src/chain/read.ts:297-328 | Whatever the node and transport do, every round trip behind an answer was a result of the right shape (section 5 of the JSON-RPC 2.0 Specification) or a probe outcome. |
| Readers.OnePassAgrees | packages/tronbox-upgrades/src/chain/read.ts:147-268 | On a chain that stands still the one-pass read agrees with each per-slot reader: missing exactly when it finds nothing. |
| Readers.OnePassFaultsIff | packages/tronbox-upgrades/src/chain/read.ts:241-268 | On a chain that stands still the one-pass read faults exactly when the code read does, or there is code and some label's reader faults for another reason than finding nothing, and as that read does. |
| Readers.ProxySlotsCost | packages/tronbox-upgrades/src/chain/read.ts:241-268 | One request for an address without code, and never more than six. |
| Readers.ReadSlotWithFallback | packages/tronbox-upgrades/src/chain/read.ts:147-160 | The first word that is not empty, or none, and exactly the requests made for it. |
| Readers.ReadLabels | packages/tronbox-upgrades/src/chain/read.ts:249-259 | The labels read in order until one faults. |
| NamespacePrefix.SharesSlotIff | packages/hardhat-tron-upgrades/src/utils/namespace-prefix.ts:7-12 | Two different locations share a slot exactly when they are one id under the two prefixes. |
| NamespacePrefix.AssertNoNamespaceSlotCollisions | packages/hardhat-tron-upgrades/src/utils/namespace-prefix.ts:63-90 | The first-seen map decides every pair: it throws exactly when some two declarations name one slot in two ways. |

## Left out

- Options: `options/resolve.ts` and the five handle keys; a request carries the options its operation reads.
- Validation, the storage report, bytecode hashing and kind inference of the engine are answers of a step; the linked-library gate is folded into the validation answer.
- The stale-transaction guard of `deploy/queue.ts:184-191`: a transaction's identity is new by construction here.
- Receipts: `deploy/confirm.ts` is the verdict heard or not heard about a transaction's status.
- The legacy slot of a proxy is one slot with the standard one in the operation engine; the readers have both.
- An implementation's deployment is part of the fetch step rather than a transaction of its own; one stored unconfirmed can land later, one that was never stored is a foreign deployment.
- The session opens for every operation; only deployProxy's report is modelled, as nothing else reads it.
- `encodeInitializer` and `encodeCall`: only whether the initializer is switched off and whether there is call data.
- The record session and the locking inside it: an abstract store, with the entries the operations read and write.
- The prior address of a proxy deployment is what the contract's write-back reads when the pipeline starts.
- Safety.SentCallsAreObeyedIff: authority other than one owner (roles, a timelock, a contract of another make at the admin slot) is not modelled; a call with call data is obeyed or not as one without.
- Pipelines.RunDeployProxy: the result object, the notes and the contract handle are not built.
- Safety.RecordedProxiesHaveStoredLayouts: says nothing of beacon proxies, whose record does not name an implementation.
- AbiString.RoundTrip: strings are sequences of Unicode scalar values; JavaScript's surrogate pairs are not modelled.
- Capture.CaptureEngineWarnings: a captured write is its level and whether its title is blank; escape stripping and line rendering are text only.
- NamespacedCache.CacheIsTransparent: calls of one process follow one another, and the walk of a syntax tree for annotations is a fact of the build.
- HardhatManifest.NothingIsLost: reading and writing the file are atomic, and a lock does not expire while its holder lives.
- NamespacePrefix.AssertNoNamespaceSlotCollisions: the linearization and the annotation's grammar are inputs; a malformed annotation declares nothing.
- Resolve.ResolveEnvironment: which property paths were read, sealing and provenance are not modelled; a diagnosis keeps its slot and an opaque cause.
- Rpc.SendIsSound: the endpoint, HTTP and JSON parsing are before this model's first step.
- Network identity configuration, the sender's resolution and the thin Hardhat deploy and upgrade wrappers.
