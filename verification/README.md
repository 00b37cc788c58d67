# pv-snapshotter: a verified model

pv-snapshotter is a containerd proxy snapshotter with an admission webhook. The webhook
attaches a persistent volume to a pod and annotates the pod with a path template; the
snapshotter renders that template when a container is mounted and moves the container's
writable layer onto the volume. A dedup mode shares read-only layers with the host's
overlayfs snapshotter through reference snapshots and leases, and a sidecar patches the
containerd configuration. This project models the parts of that logic with the most state
and the most branching, and proves what they guarantee over all inputs and all runs.

Check everything with `dafny verify dfyconfig.toml`.

## The parts

**Lease protocol** (`LeaseProtocol`, `LeaseTheorems`, `PinLifetime`, `LeaseAccounting`).
Prepare, Remove, the orphan sweep and the operator's delete are sequences of steps over the
local store, the lease service, the host's layers and the gauge. A run is any sequence of
enabled steps: calls interleave freely, each external call is one step and may fail, keys
are reused, the process restarts. One invariant holds in every reachable state. From it come
the lifetime of a pin, the survival of the host chain below it, and the accounting law that
relates the gauge to the leases that exist. Pins can be lost to a Remove of the same key that
began before the Prepare; the exact condition on such Removes is an if-and-only-if.

**Materialisation** (`Materialise`, `MaterialiseInv`, `MaterialiseTheorems`). Stat calls with
one program counter each, the mutex around part of them, the probe view outside it, unpacks
by containerd, host additions and collections. Temporary keys have one owner, a failed
attempt restores the store, commits and removals balance, answers agree, and reference
chains spell the host's chains. Two limits of the code are stated with their exact
conditions: a temporary key left by a failed cleanup or a dying process blocks its chain ID,
and nothing in the program clears it (`StepKeepsTemps`, `LeftoverBlocks`, `LeftoverReachable`),
so it stays as long as nobody else removes it; and a probe view collected while in use lets
one call remove another's view (`StepKeepsViews`, `CollectedViewIsStolen`), while one left
behind blocks its layer until it is collected (`StaleViewBlocks`).

**The manager's methods** (`DedupManager`, `SequentialRuns`, `SequentialBuilds`). The same
operations as methods of a class, one at a time, with every failure of a service as a
parameter; the sweep against the orphan count, and the exact condition under which a sweep
repairs a faulty Remove. Prepare, Remove, sweep, delete and the whole Stat are uninterrupted
runs of their protocols.

**Two-stage templates** (`Templates`, `Staging`). The webhook renders a template to a string
that is a template again. Staging equals a single rendering with the merged data for every
source exactly when every substituted value is *inert*: it holds no `{{` and does not end in
`{`. Values without any `{` are inert; so are values with single braces inside.

**Patch builder** (`JsonPointer`, `JsonPatch`, `Pods`, `PodPatch`). Pod documents are JSON
trees; the patch is applied by sections 4.1 and 4.3 of RFC 6902 over pointers of RFC 6901.

**Configuration patcher** (`Toml`, `ConfigPatcher`, `ConfigTheorems`, `ConfigReadBack`,
`DottedNames`, `ConfigClones`, `RuntimeClone`). A file is a list of tables with the definition rules of TOML
v1.0.0. The sidecar changes each file at most once exactly when every dotted name it is given
occurs again, and clones are faithful exactly for flat bases. `RuntimeClone` models the Go maps of the clone on the heap, where
sharing would show.

**Admission and mount time** (`OwnerWalk`, `BoundWait`, `Admission`, `SnapshotKeys`, `Mounts`,
`Resolver`, `EndToEnd`). The owner walk, the wait for a bound claim, the choice of a claim, the
redirection of overlay options, and the theorem that joins admission to the mount.

## Assumptions

- A lease ID is never handed out twice, listings filter exactly, and the sweep's `Stat` of an
  owner fails only when the key is absent.
- A failed call to a service had no effect, except that a failed symlink may already have
  removed the directory.
- Host garbage collection keeps leased layers and their ancestors.
- Container keys leave the local store through Remove or Commit only, and nobody but this
  program uses its temporary keys.
- Chain IDs are content addresses: one chain ID has one parent. Host directories are not reused.
- A local active snapshot without a parent is a bind mount, which has no `upperdir` option.

## Model

| member | source | states |
|---|---|---|
| LeaseTheorems.StepKeepsInv | pkg/containerd/snapshotter/dedup.go:335-402 | every step of every call, fault and restart keeps the invariant: numbers only grow, listed leases keep their owner, a lease under completion has one completing call and pins nothing yet, a lease about to be swept belongs to a creation that is over |
| LeaseTheorems.RunKeepsInv | pkg/containerd/snapshotter/dedup.go:335-499 | the invariant holds in every reachable state |
| PinLifetime.PinLasts | pkg/containerd/snapshotter/service.go:353-405 | a Prepare that starts while no Remove of its key is still to list leases, creates the key and pins keeps that pin over every later run that neither removes nor commits the key nor deletes this lease by hand; every host chain below the layer at pin time is still there with the same parents |
| PinLifetime.PinSurvivesIffSafe | pkg/containerd/snapshotter/service.go:427-445 | the pin of a live creation survives every run that spares key and lease if and only if no Remove in progress is still to list the key's leases or has this lease on its list |
| PinLifetime.PinHappens | pkg/containerd/snapshotter/service.go:384-405 | an undisturbed Prepare of a new key that pins goes through, whatever other calls there are |
| PinLifetime.HeldOverRun | pkg/containerd/snapshotter/dedup.go:335-402 | a held pin and the host chain below it survive every quiet run, restarts included |
| PinLifetime.SweepSparesLivePins | pkg/containerd/snapshotter/dedup.go:469-499 | in every run from a state with the invariant, leases inherited at process start included, a sweep deletes only leases whose creation is over, however old its listing and even if the key was created again |
| PinLifetime.RacingRemoveUnpins | pkg/containerd/snapshotter/service.go:427-445 | in every state in which a Remove is still to list the leases of a key that pins, a Prepare can create and pin the key and lose that pin to the Remove, with the key live |
| PinLifetime.StepKeepsChain | pkg/containerd/snapshotter/dedup.go:323-335 | while a layer is leased, no step removes a layer of its chain or changes its parent |
| LeaseAccounting.LeasesAccounted | pkg/containerd/snapshotter/dedup.go:335-402 | in every reachable state, managed leases plus decrements owed equal gauge plus inherited plus stranded plus foreign decrements plus increments owed |
| LeaseAccounting.IdleGaugeExact | pkg/containerd/snapshotter/dedup.go:419-426 | started without managed leases and not restarted, an idle process shows the number of managed leases on its gauge if and only if no cleanup failed and no lease of others was deleted on the way; others may create and drop leases |
| MaterialiseInv.StepKeepsInv | pkg/containerd/snapshotter/dedup.go:243-291 | every step keeps the mutex, the calls' knowledge of the host, the shape of the local store and the consistency of the answers given |
| MaterialiseInv.RunKeepsInv | pkg/containerd/snapshotter/dedup.go:93-291 | that invariant holds in every reachable state |
| MaterialiseTheorems.TempHasOneOwner | pkg/containerd/snapshotter/dedup.go:270-291 | no two calls are past the lock at once, so none share a temporary key |
| MaterialiseTheorems.OwnedTempPresent | pkg/containerd/snapshotter/dedup.go:160-201 | from Prepare to Commit or cleanup, the call's temporary snapshot is present, active and over the parent it looked up |
| MaterialiseTheorems.ViewHasOneOwner | pkg/containerd/snapshotter/dedup.go:104-113 | every call between its View and its Remove owns the view it made, if collection spares views in use |
| MaterialiseTheorems.StepKeepsViews | pkg/containerd/snapshotter/dedup.go:104-113 | a step keeps that ownership if and only if it collects no view in use |
| MaterialiseTheorems.OnlyCreatorRemoves | pkg/containerd/snapshotter/dedup.go:104-113 | a step that removes a view is its creator's |
| MaterialiseTheorems.CollectedViewIsStolen | pkg/containerd/snapshotter/dedup.go:104-113 | after a view is collected in use, a call removes the view that another call made and still uses |
| MaterialiseTheorems.StaleViewArises | pkg/containerd/snapshotter/dedup.go:109-113 | a failed removal, or a restart while a view is in use, leaves such a view |
| MaterialiseTheorems.StepKeepsStale | pkg/containerd/snapshotter/dedup.go:104-113 | exactly the collection of that view clears it |
| MaterialiseTheorems.StaleViewBlocks | pkg/containerd/snapshotter/dedup.go:104-113 | a view that no call will remove stays until it is collected, and no probe of its layer gets past it |
| MaterialiseTheorems.CommitLedger | pkg/containerd/snapshotter/dedup.go:188-196 | commits of a chain ID, by Stat or by unpack, and active snapshots made under it, minus its departures, equal its presence: between two commits it has left |
| MaterialiseTheorems.StatsAgree | pkg/containerd/snapshotter/service.go:276-298 | over every run, two successful Stats of one snapshot answer the same |
| MaterialiseTheorems.StatsAgreeUntilDrop | pkg/containerd/snapshotter/service.go:276-298 | while a key is neither removed nor committed away, its snapshot's info is constant and every new answer is that info |
| MaterialiseTheorems.FailedAttemptRestores | pkg/containerd/snapshotter/dedup.go:160-201 | a failed attempt with a working cleanup leaves the local store exactly as containerd's own steps alone would have left it, each of them possible without the attempt, among any Stat calls, unpacks, commits, removals and host changes |
| MaterialiseTheorems.NoLeftovers | pkg/containerd/snapshotter/dedup.go:171-196 | a run ends with every temporary key owned by the lock's holder if and only if no cleanup failed and no restart met a temporary key on the way |
| MaterialiseTheorems.StepKeepsTemps | pkg/containerd/snapshotter/dedup.go:171-196 | exactly a failed cleanup and a restart with a temporary key present strand a key, and each leaves one without an owner |
| MaterialiseTheorems.LeftoverBlocks | pkg/containerd/snapshotter/dedup.go:164-166 | a temporary key without an owner stays in every run, and from then on every commit of its chain ID is an unpack's: no Stat materialises it again |
| MaterialiseTheorems.LeftoverReachable | pkg/containerd/snapshotter/dedup.go:279-288 | such a key arises: from every state with a free mutex, for every chain ID the host has, by a Stat whose parent lookup and cleanup fail |
| MaterialiseTheorems.ReferenceMirrorsHost | pkg/containerd/snapshotter/dedup.go:279-288 | every reference is committed over a present committed parent that is the host's, never none, and links to a directory made for that very chain ID (references are made: `StatMaterialises`) |
| MaterialiseTheorems.SpineSpellsHostChain | pkg/containerd/snapshotter/dedup.go:160-215 | following local parents spells the host chain down to a present snapshot that is no reference |
| MaterialiseTheorems.NamesAreKeys | pkg/containerd/snapshotter/dedup.go:162-162 | keys split exactly into temporary keys and others, and no chain ID is a temporary key |
| MaterialiseTheorems.SuccessesAreReal | pkg/containerd/snapshotter/dedup.go:93-291 | no step of a Stat succeeds where the snapshotter it asks would have to refuse |
| DedupManager.Dedup.PinLayer | pkg/containerd/snapshotter/dedup.go:335-368 | a fresh labelled lease on the layer and one more on the gauge, or nothing; only a failed cleanup leaves an empty lease |
| DedupManager.Dedup.UnpinByActiveKey | pkg/containerd/snapshotter/dedup.go:377-402 | exactly the key's leases that are not refused go, the gauge falls by their number, the failure counter grows by the refused ones |
| DedupManager.Dedup.DeleteLease | pkg/containerd/snapshotter/dedup.go:419-426 | a present lease of the namespace goes with one decrement, or nothing changes |
| DedupManager.Dedup.CountOrphanLeases | pkg/containerd/snapshotter/dedup.go:441-461 | counts the managed leases of the namespace whose labelled owner is gone, and 0 on a failed listing |
| DedupManager.Dedup.GcOrphanLeases | pkg/containerd/snapshotter/dedup.go:469-499 | deletes exactly the orphans that are not refused, returns their number and lowers the gauge by it |
| DedupManager.Dedup.Remove | pkg/containerd/snapshotter/service.go:427-445 | the key goes if it can; its leases go in any case, with gauge and failure counter |
| DedupManager.Dedup.Prepare | pkg/containerd/snapshotter/service.go:353-405 | the key is created if it can; the parent's layer is pinned in any case, exactly for the keys that pin; leases and gauge for every way the pin can fail |
| DedupManager.Dedup.OverlayfsLayerPath | pkg/containerd/snapshotter/dedup.go:93-121 | the layer's directory, a miss or an error, case by case; the probe view is gone unless its removal fails |
| DedupManager.Dedup.MaterializeReference | pkg/containerd/snapshotter/dedup.go:160-201 | succeeds exactly over a committed non-empty parent with both names free and no fault; then one committed link is added; otherwise the store is as before unless the cleanup fails |
| DedupManager.Dedup.Stat | pkg/containerd/snapshotter/dedup.go:243-291 | for every combination of failing calls: whether it answers from the local store, with a reference it just committed (the host's parent and directory) or not at all, and what the store then is; only the temporary key can be left over |
| DedupManager.EachDeleted | pkg/containerd/snapshotter/dedup.go:392-401 | one delete per listed lease, in any order, is the removal of the set, with matching counts |
| DedupManager.SweepLowersCount | pkg/containerd/snapshotter/dedup.go:441-499 | a sweep lowers the orphan count by exactly what it deletes, to zero exactly when no orphan's delete is refused, and keeps every lease with a live owner |
| DedupManager.SweepRepairsRemove | pkg/containerd/snapshotter/dedup.go:377-402 | a clean sweep after a Remove with refused deletes leaves what it leaves after a faultless one if and only if each refused lease is managed, in `k8s.io`, and its key is gone |
| SequentialRuns.RemoveIsARun | pkg/containerd/snapshotter/service.go:427-445 | a Remove taken alone in the lease protocol does to key, leases and gauge what `Remove` states |
| SequentialRuns.SweepIsARun | pkg/containerd/snapshotter/dedup.go:469-499 | a sweep taken alone in the lease protocol does to leases and gauge what `GcOrphanLeases` states |
| SequentialRuns.PrepareIsARun | pkg/containerd/snapshotter/service.go:353-405 | a Prepare taken alone in the lease protocol does to leases and gauge what `Prepare` states |
| SequentialRuns.DeleteIsARun | pkg/containerd/snapshotter/dedup.go:419-426 | an operator's delete taken alone in the lease protocol does what `DeleteLease` states |
| SequentialRuns.SuccessesAreReal | pkg/containerd/snapshotter/dedup.go:335-499 | no step of the lease protocol succeeds where the store or the lease service would have to refuse |
| SequentialBuilds.BuildIsARun | pkg/containerd/snapshotter/dedup.go:160-201 | a build taken alone in the materialisation protocol does to the store, the lock and the call what `MaterializeReference` states, for every combination of faults |
| SequentialBuilds.StatIsARun | pkg/containerd/snapshotter/dedup.go:243-291 | a whole Stat taken alone in the protocol, from its first local Stat to its answer, does what `Dedup.Stat` states, for every combination of failing calls |
| SequentialBuilds.StatMaterialises | pkg/containerd/snapshotter/dedup.go:243-291 | lazy materialisation works: from every state with a free mutex, a Stat of an absent chain ID whose layer is on the host over a committed parent commits the reference with the host's parent and directory, answers with it and frees the lock |
| Staging.StagedEqualsMerged | pkg/webhook/mutating.go:279-333 | for every source, rendering at the webhook, re-parsing and rendering at the resolver equals one rendering with the merged data, when the webhook's values are inert |
| Staging.StagingSafeIffInert | pkg/webhook/mutating.go:752-761 | the two agree on all sources and all resolver data if and only if the values are inert |
| Staging.OpeningValueBreaksStaging | pkg/webhook/mutating.go:752-761 | a value with an opening delimiter in it breaks the plainest template |
| Staging.TrailingBraceBreaksStaging | pkg/webhook/mutating.go:752-761 | a value that ends in a brace makes a new action out of literal text |
| Staging.RenderInertPrefix | pkg/containerd/snapshotter/resolver.go:238-291 | inert text in front of a template is copied: concatenation creates no delimiter |
| Staging.RenderActionText | pkg/webhook/mutating.go:324-333 | the action text written for a passed-through field is an action again for the resolver |
| Staging.RenderSpacedAction | pkg/containerd/snapshotter/resolver.go:238-291 | blanks inside the braces of a field action do not matter |
| Staging.ScanExactly | pkg/containerd/snapshotter/resolver.go:238-291 | the text after an opening delimiter is an action exactly when it is one field with blanks around it and the closing delimiter |
| Staging.MissingField | pkg/containerd/snapshotter/resolver.go:238-291 | a missing field is an error for the webhook and a fixed text for the resolver |
| JsonPointer.TwoPassIsSinglePass | pkg/webhook/mutating.go:655-662 | the two replace-alls equal a per-character escape |
| JsonPointer.EscapeRoundTrip | pkg/webhook/mutating.go:655-662 | the ordered unescape of section 4 of RFC 6901 recovers every key |
| JsonPointer.EscapedHasNoSlash | pkg/webhook/mutating.go:655-662 | an escaped key is one reference token |
| JsonPointer.EscapeInjective | pkg/webhook/mutating.go:655-662 | distinct keys address distinct members |
| JsonPointer.PointerRoundTrip | pkg/webhook/mutating.go:655-662 | a pointer built from tokens reads back as those tokens |
| PodPatch.BuildPatch | pkg/webhook/mutating.go:639-729 | a patch exists exactly when every template renders; for documents with object `metadata`, `spec` and first container it gives the intended pod, field by field, whatever the iteration order, and on all others it fails for want of a target |
| PodPatch.MutatedIsIntended | pkg/webhook/mutating.go:639-729 | the intended pod in the fields' own words: annotations merged, a volume `pv-snapshotter--state` over the claim appended, a mount of that volume at the state path appended to the first container, the runtime class suffixed, all else unchanged |
| Pods.DecodeInvertsEncode | pkg/webhook/mutating.go:306-320 | every pod field the webhook reads is decoded from its own place in the document |
| JsonPatch.ReplaceNeedsTarget | pkg/webhook/mutating.go:698-726 | a replace succeeds exactly on an existing target (section 4.3 of RFC 6902) |
| JsonPatch.IndexExactly | pkg/webhook/mutating.go:678-696 | an index token is exactly the decimal writing of its number |
| PodPatch.NullContainerFails | pkg/webhook/mutating.go:682-696 | a pod with object metadata and spec and `containers: [null]` decodes, and its patch fails for want of a target |
| PodPatch.AppendAnnotationOps | pkg/webhook/mutating.go:650-663 | the annotation operations, in any order, merge the rendered annotations into the existing ones |
| PodPatch.AnnotationAdded | pkg/webhook/mutating.go:655-662 | one operation sets one annotation, whatever characters its key has |
| PodPatch.VolumePhase | pkg/webhook/mutating.go:665-676 | one state volume is appended, also when the list is absent or null |
| PodPatch.MountPhase | pkg/webhook/mutating.go:678-696 | one mount is appended to the first container and to no other |
| PodPatch.RuntimeClassPhase | pkg/webhook/mutating.go:698-726 | the runtime class is suffixed, with the default when the pod names none |
| PodPatch.PatchFinished | pkg/webhook/mutating.go:665-728 | the remaining operations lead from the annotated pod to the intended pod, or fail exactly on documents that cannot be patched |
| OwnerWalk.ResolveOwner | pkg/webhook/mutating.go:385-457 | at most the allowed number of fetches, and the result of the recursive walk, on every ownership graph |
| OwnerWalk.FollowedKinds | pkg/webhook/mutating.go:437-457 | exactly six kinds are followed, each to its own resource |
| OwnerWalk.WalkEndsItsPath | pkg/webhook/mutating.go:385-457 | the walk returns the end of its first-controller path |
| OwnerWalk.WalkPathExists | pkg/webhook/mutating.go:385-457 | such a path exists for every object and depth, cycles included |
| OwnerWalk.WalkComposes | pkg/webhook/mutating.go:385-457 | a+b hops are a hops and then b hops |
| OwnerWalk.ControllerRefs | pkg/webhook/mutating.go:385-457 | the loop keeps exactly the controller references, in order |
| BoundWait.WaitBound | pkg/webhook/mutating.go:568-618 | total requested sleep within the timeout, a bound on the re-fetches, success exactly with a claim last observed bound, a volume name and an existing volume, for every failure what it says of the last claim, and a timeout only once the clock has passed the deadline |
| Admission.FindBoundClaim | pkg/webhook/mutating.go:478-555 | the granted claim is the one the override, name and selector precedence picks, observed bound to an existing volume; each denial, the reason of a failed wait included, is true of the claim last observed |
| Admission.OwnerNamedClaim | pkg/webhook/mutating.go:324-354 | with the template `{{.OwnerName}}` the claim is the one named like the object at the end of the pod's path of controllers |
| Admission.PodNamedClaim | pkg/webhook/mutating.go:324-354 | with the template `{{.PodName}}` the claim is the one named like the request |
| Admission.ResolvedByPrecedence | pkg/webhook/mutating.go:478-555 | a claim is resolved exactly when it is the override's, or without one the name template's, or when that renders to nothing the first the selector lists |
| Admission.Mutate | pkg/webhook/mutating.go:306-373 | an allowed pod has one justified claim, and the patch makes it the intended pod for that claim and volume; each denial is true of the pod's own owner, claim and volume |
| Admission.AnnotationOfField | pkg/webhook/mutating.go:324-354 | an annotation whose template is one field holds, in the admitted pod, the owner name, request name, volume name, volume handle, pod index or passed-through action of that name |
| Admission.OverrideNeverFallsBack | pkg/webhook/mutating.go:478-555 | with an override present the global templates do not matter |
| SnapshotKeys.ParseInvertsBuild | pkg/containerd/snapshotter/resolver.go:325-337 | parsing inverts building, slashes in the ID included, and rejects exactly the other IDs |
| SnapshotKeys.ParsedKeysAreBuilt | pkg/containerd/snapshotter/resolver.go:325-337 | only built keys parse |
| SnapshotKeys.PinExactly | pkg/containerd/snapshotter/service.go:384-395 | Prepare pins exactly container keys over a wrapped chain ID, in the key's namespace |
| SnapshotKeys.PinAndUnpinAgree | pkg/containerd/snapshotter/service.go:439-443 | a pinned key is searched for in the namespace it was pinned in |
| SnapshotKeys.ChainIdIsContainerId | pkg/containerd/snapshotter/dedup.go:306-321 | every chain ID passes as an ID of a key |
| SnapshotKeys.ContainerIdExactly | pkg/containerd/snapshotter/resolver.go:325-337 | IDs with a blank or the prefix `extract-` name no container |
| SnapshotKeys.ChainIdExactly | pkg/containerd/snapshotter/dedup.go:306-321 | a chain ID is `sha256:` and 64 lower-case hex digits, and nothing else |
| Mounts.ReplaceUpperdirOptions | pkg/containerd/snapshotter/mount.go:66-103 | the rewritten list in a fresh slice with a fresh first option slice; the arguments are not written to and the other mounts are shared |
| Mounts.RedirectShape | pkg/containerd/snapshotter/mount.go:66-103 | same length, every other option in place, no stale upperdir or workdir |
| Mounts.RedirectInWords | pkg/containerd/snapshotter/mount.go:66-103 | the rewrite option by option, in the options' own words, and no change to any other list of mounts |
| Mounts.RedirectLastWins | pkg/containerd/snapshotter/mount.go:66-103 | rewriting to a and then to b is rewriting to b |
| Mounts.RedirectIdempotent | pkg/containerd/snapshotter/mount.go:66-103 | rewriting twice is rewriting once |
| Mounts.RedirectedUpperdir | pkg/containerd/snapshotter/dedup.go:205-215 | the upperdir read back from a rewritten writable overlay is the new one |
| Mounts.UpperdirExactly | pkg/containerd/snapshotter/dedup.go:205-215 | an upperdir is read exactly from the first mount's first `upperdir=` option |
| Mounts.ViewShowsLayer | pkg/containerd/snapshotter/dedup.go:128-144 | the directory read from a view is the viewed layer's: the first or only lowerdir, or the bind source |
| Mounts.LayerPathFails | pkg/containerd/snapshotter/dedup.go:128-144 | exactly the views of another kind, and overlay views without a lowerdir, are errors |
| Mounts.EnsureUpperdirReady | pkg/containerd/snapshotter/mount.go:19-55 | accepts exactly a mountpoint in which both directories can be made |
| Mounts.ParentIsDirname | pkg/containerd/snapshotter/mount.go:19-55 | the derived parent is the directory name, with any number of trailing slashes |
| Resolver.AssembleData | pkg/containerd/snapshotter/resolver.go:238-291 | pod identity overridden by every `var.` annotation, in any order |
| Resolver.VarNameIffAnnotated | pkg/containerd/snapshotter/resolver.go:238-291 | exactly the annotated names become variables |
| Resolver.ServeMounts | pkg/containerd/snapshotter/service.go:322-351 | an error, a crash, the native mounts or the redirected mounts, and exactly when each |
| Resolver.WorkloadRedirection | pkg/containerd/snapshotter/resolver.go:168-291 | a non-empty literal path wins over any template; without literal and template there is no redirection; a template is rendered with the sandbox's identity, overridden by `var.` annotations |
| Resolver.OnlyWorkloadsRedirected | pkg/containerd/snapshotter/resolver.go:108-166 | nothing but a workload container under a known sandbox is redirected |
| Resolver.SandboxNeverRedirected | pkg/containerd/snapshotter/resolver.go:108-233 | a sandbox's own container keeps its native mounts |
| EndToEnd.WorkloadWritesGoToItsVolume | pkg/containerd/snapshotter/service.go:322-351 | a workload of an admitted pod is redirected to the CSI mount of the volume its claim was observed bound to, under the real pod UID |
| EndToEnd.MountWorkload | pkg/containerd/snapshotter/service.go:322-351 | Mounts for such a workload fails exactly when the volume's path is not ready, crashes exactly when it is and there is no native mount, and otherwise returns the native mounts redirected to that path |
| EndToEnd.DefaultAtAdmission | pkg/webhook/mutating.go:324-354 | the webhook turns the default template into one that still holds the pod UID action |
| EndToEnd.DefaultAtMountTime | pkg/containerd/snapshotter/resolver.go:238-291 | the resolver turns that into the kubelet's path |
| EndToEnd.AdmittedAnnotations | pkg/webhook/mutating.go:641-663 | the annotations of the admitted pod that matter at mount time |
| EndToEnd.ConfigResolves | pkg/containerd/snapshotter/resolver.go:108-233 | a sandbox with those annotations resolves to the volume's path |
| EndToEnd.DefaultTemplatesParse | pkg/webhook/mutating.go:96-99 | the default templates parse |
| EndToEnd.KeysInWords | pkg/webhook/mutating.go:96-99 | the annotation keys, written out |
| EndToEnd.DefaultsInWords | pkg/webhook/mutating.go:96-99 | the default template and the kubelet's path, written out |
| ConfigPatcher.HasKey | pkg/containerd/config/patcher.go:157-180 | true exactly when the whole path exists in the tree |
| ConfigPatcher.CollectMissing | pkg/containerd/config/patcher.go:87-106 | exactly the missing sections, with their bases, in request order |
| ConfigPatcher.Apply | pkg/containerd/config/patcher.go:49-84 | unmodified exactly when nothing is missing; otherwise the file with the snippet appended |
| ConfigReadBack.ProxyRegistered | pkg/containerd/config/patcher.go:229-236 | a run that finds the proxy plugin missing and leaves a valid file has written type `snapshot` and the socket as address |
| ConfigPatcher.RuntimeSnippet | pkg/containerd/config/patcher.go:251-300 | the sections of one runtime: its scalars and one section per sub-table |
| ConfigTheorems.ApplyReachesFixpoint | pkg/containerd/config/patcher.go:49-106 | for bare names and flat bases: what is reported, when the result is valid, that it extends the original, and that a second run reports unmodified |
| ConfigTheorems.PatchedValidIff | pkg/containerd/config/patcher.go:251-300 | the patched file is valid if and only if the parent tables are open and the missing names distinct; each new entry then reads back as its base with only the snapshotter overridden |
| ConfigReadBack.NewEntryReadsBack | pkg/containerd/config/patcher.go:111-141 | every new entry key by key: the snapshotter, else what the version-2 base says, else the version-3 one, else the minimal entry's runtime type |
| ConfigTheorems.PatchedHasEverything | pkg/containerd/config/patcher.go:49-106 | a valid patched file keeps every entry and lacks nothing that was requested |
| ConfigTheorems.RuntimesDefined | pkg/containerd/config/patcher.go:251-300 | all new entries at once, and nothing else changed |
| ConfigTheorems.RuntimeDefined | pkg/containerd/config/patcher.go:251-300 | one new entry reads back exactly, in any iteration order |
| ConfigTheorems.AppliedSettles | cmd/daemon/config.go:79-95 | after one run the file is complete or invalid |
| ConfigTheorems.AtMostOneChange | cmd/daemon/config.go:79-95 | any number of runs changes the file, and asks for a restart, at most once |
| ConfigTheorems.RepeatedNameFails | pkg/containerd/config/patcher.go:251-300 | a name already defined makes the patched file invalid |
| DottedNames.DottedNameStaysMissing | pkg/containerd/config/patcher.go:251-300 | an entry with a dot in its name is written where it is never looked for, whatever other entries are written with it |
| DottedNames.DottedNameRuinsFile | pkg/containerd/config/patcher.go:49-106 | with a missing dotted name among any runtimes the first run changes the file, and if that file is valid the second run changes it again, repeats the header and leaves a file that no longer parses |
| DottedNames.RepeatedHeaderFails | pkg/containerd/config/patcher.go:211-300 | two missing entries of one name, dotted or not, make the patched file invalid |
| DottedNames.WitnessFirstRun | pkg/containerd/config/patcher.go:49-84 | for every list in which a dotted name occurs once there is a file on which the first run is valid, so both runs happen |
| DottedNames.OneChangeIffDotsRepeat | cmd/daemon/config.go:79-95 | for every list of runtimes, the sidecar changes every file at most once over any number of runs if and only if each dotted name in the list occurs at least twice |
| ConfigClones.NestedTableLeaks | pkg/containerd/config/patcher.go:251-300 | a table inside a base sub-table ends up at the root of the document, and the clone's sub-table does not have it |
| ConfigClones.GapStays | pkg/containerd/config/patcher.go:211-300 | a table that a clone loses stays lost whatever the other new entries are |
| ConfigClones.ClonesExactIffFlat | pkg/containerd/config/patcher.go:251-300 | in every valid patched document all new entries read back as their bases with only the snapshotter overridden if and only if no base sub-table holds a table or has a dotted name |
| Toml.DefineIff | pkg/containerd/config/patcher.go:49-106 | a table can be added exactly on an open path where it is new or only implied |
| Toml.DefineExtends | pkg/containerd/config/patcher.go:49-106 | adding a table is a conservative extension |
| RuntimeClone.DeepCopy | pkg/containerd/config/patcher.go:143-153 | an equal tree that shares no map with the original |
| RuntimeClone.HasEntry | pkg/containerd/config/patcher.go:184-207 | true exactly when either version has an entry of that name, table or not |
| RuntimeClone.CopyBase | pkg/containerd/config/patcher.go:111-141 | a deep copy of the base found by the walk, version-2 location first, or none exactly when there is no such table |
| RuntimeClone.OverrideSnapshotter | pkg/containerd/config/patcher.go:251-263 | one clone's snapshotter field changes and nothing else |
| RuntimeClone.FinishEntry | pkg/containerd/config/patcher.go:251-263 | the clone with the snapshotter written into it, or a minimal new entry |
| RuntimeClone.CloneForAll | pkg/containerd/config/patcher.go:87-153 | for every list of runtimes: each new entry holds its own base with only the snapshotter overridden, or the minimal entry where there is no base; the entries are new maps that no two of them share, and the parsed tree holds what it held |

## Where the code and its comments differ

- The comment on the manager's mutex says that it guards pinning. The code takes it only in
  lazy materialisation; the model follows the code.
- The comment on `listManagedLeases` speaks of all namespaces. The code lists one, always
  `k8s.io`, and so do the sweep and the operator's delete; leases of other namespaces are out
  of the sweep's reach (`SweepRepairsRemove`).
- A pod with `containers: [null]` decodes to one empty container, and the mount operation then
  has no object to work on (`NullContainerFails`). `BuildPatch` states exactly which documents
  can be patched.

## Left out

- gRPC, HTTP, Prometheus, logging, command-line and Kubernetes client wiring.
- Entering the host's namespaces, restarting containerd and waiting for its socket.
- The file system: directories are identities, symlinks are links to them, readiness is an oracle.
- Go templates beyond text and field actions (pipelines such as `sha256`, conditionals, trim markers).
- TOML text, arrays of tables, and runtime names that a header does not read as bare keys separated by dots; a file is a list of tables.
- Case-insensitive matching of JSON member names and duplicate members.
- Admission.Mutate: a pod is malformed here when a field the webhook reads has the wrong type; the program also rejects wrong types in fields it never reads.
- The texts of error messages and the labels other than owner and managed-by.
- References after their host layer has gone: nothing in the code keeps the layer between probe and pin.
- DottedNames.OneChangeIffDotsRepeat: for names that a header reads as bare keys separated by dots, because TOML text is not modelled.
- ConfigClones.ClonesExactIffFlat: for sub-table names of that kind, for the same reason.
