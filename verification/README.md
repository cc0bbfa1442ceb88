# Verified model of the sync core

This project models the sync core of an end-to-end encrypted vault: records that merge field by
field, the vault on one device with its append-only log, snapshot and key lists, the relay that
stores sealed entries, and the rounds in which any number of devices exchange entries through it.
Everything here is proved for all inputs, all runs or all reachable states.

`dafny verify dfyconfig.toml` checks the whole project.

## How it is built

| layer | modules |
|---|---|
| results and errors | `Wrappers`, `VaultErrors` |
| records and merge | `Records`, `Merging` |
| bytes and checks | `LogCodec`, `PayloadCheck` |
| keys and sealing | `Keyrings` |
| the vault | `VaultSpec` (each operation as a change of values), `VaultRuns` (any number of handles on one directory), `Vault` (the class) |
| all vaults | `Fleet` (any number of devices under no hypothesis), `Causality` |
| the relay | `RelaySpec` (each request as a change of the tables), `RelayRuns` (arbitrary requests and replays), `RelayServer` (the class) |
| the system | `Protocol` (devices, relay, steps, hypotheses), `ProtocolSteps`, `ProtocolKeys`, `ProtocolWorld`, `ProtocolTags`, `ProtocolRights`, `ProtocolCursors` (one invariant each), `ProtocolRuns` (theorems over every run) |
| whole-run results | `ProtocolLogs`, `Convergence`, `Rotation` |
| client code | `Sync`, `SyncRuns`, `DeviceClient`, `DeviceRuns` |

The classes are proved against the value functions of their specification module, and the run
theorems are about the same functions. (An open or a reload of the class may compact on the way;
that is the run's step followed by its compaction step, by `VaultRuns.OpenIsSteps` and
`VaultRuns.ReloadIsSteps`.) The straight-line handlers of the relay class have no row below; what they
amount to over runs is in the rows of `RelayRuns`. A sync round of the client code is moreover proved to be a trace of the device steps of `Protocol`, and a successful rotation or
removal a sequence of its actions, so their outcomes are reachable states of the system. Every run
of the system is a run of the fleet of its vaults.

Sealing, wrapping and signing are ideal: a sealed blob opens exactly under its own key and entry
id, a wrapped list opens for its recipient only, and a signature names its signer, time and body.
Random ids and keys are fresh, and clocks and times are parameters.

## Hypotheses of the run theorems

None is needed for clocks and for the coherence of snapshots: `Fleet` lets any handle of any device,
stale or not, at any time write any longer key list, take in any frame that was ever sealed, move its
cursor, reload or compact. Causality needs H5 only, also over `Fleet`:

- H5: every pulled entry could be opened when it was applied.

Three are built into the steps of `Protocol`, for keys, tags, rights, snapshots and cursors:

- H1: the row query and the head query of a pull see one database state.
- H4: all key lists of one share are leading parts of one sequence: devices wrap lists they hold,
  and a named share is rotated only from its newest list. For the default share this follows from
  deriving keys from the right phrase.
- H6: a handle that writes the keyring or runs a round holds the keyring that is on disk, and no
  other handle writes the keyring or runs a round meanwhile.

Two are predicates on the actions that concern one device (`Protocol.Careful`). They are assumed
only for the device whose cursors a result is about, that is in `ProtocolRuns.CursorIsComplete`,
`SyncRuns.RoundStaysComplete` and, for the devices that take part, in `Convergence`:

- H2: a round that has gained a share is interrupted before it finishes only while no cursor, on
  disk or in any open handle, is above zero. (Before the rewind the cursor still hides the share's
  entries; after it, another handle that carries a cursor can bring it back.)
- H3: a device is granted a share it already holds only while it still belongs to it, or before the
  share's first grant (so that a creator whose first grant was interrupted can still join its own
  share).

What goes wrong without them is shown by `ProtocolCursors.SplitPullIsMissed` (H1),
`ProtocolCursors.InterruptedGainIsMissed` and `ProtocolCursors.StaleCursorUndoesRewind` (H2),
`ProtocolCursors.RegrantIsMissed` (H3), `Keyrings.DivergentListLosesFrames` (H4),
`Causality.AppliedIsOutrunIff` (H5), `VaultSpec.StaleKeyringLosesFrames` and
`ProtocolTags.StaleKeyringMisfiles` (H6).

## Where a promise holds only under a condition

- Merging is called commutative (docs/architecture.md:74); it is exactly on coherent snapshots, and
  on every run all snapshots are coherent. Associativity and idempotence need no condition.
- A rotation is meant to keep a revoked device from what is written after it. It does so for writes
  under the new key and all later ones. But a handle that has not taken up the new list yet, whether
  of the device that rotated or of another that has not healed, seals under its old list until its
  next heal or until it is opened anew, and the revoked device reads exactly the default-share
  writes of handles whose list is no longer than its own (`Rotation.RevokedReadsWriteIff`). The same
  holds of a named share and a member removed from it (`Rotation.RemovedReadsWriteIff`).
- A written frame reads back exactly when 16 + blob length is below 2^32; the length is cast to 32
  bits.
- A replayed rotation is refused for good exactly when the request's timestamp was not ahead of
  relay time; a request from a clock that runs ahead outlives its cache entry. The guarded epoch
  bump still refuses it, so epochs increase strictly in any case.
- docs/architecture.md:79 says the counter becomes `max(local, observed)+1` on a pull; the code
  takes the maximum, and the next write adds one.
- An edit cannot delete a field: fields the payload omits stay.

## Model

| member | source | states |
|---|---|---|
| Merging.Merge | src/merge.rs:14-41 | The loop over the second snapshot's fields computes the join of the two snapshots; the lemmas below say what that join is. |
| Merging.MergeAll | src/merge.rs:47-56 | The loop over a record sequence computes the fold that merges each record into the state of its id. |
| Merging.OrderIsPartial | src/merge.rs:14-41 | "Knows at least as much, and agrees where clocks are equal" is a partial order on snapshots of one record. |
| Merging.MergeIsLeastUpperBound | src/merge.rs:14-41 | For coherent snapshots the merge is the least upper bound in that order. |
| Merging.MergeCommutesIff | src/merge.rs:14-41 | The two merge orders agree if and only if the snapshots are coherent: equal field clocks carry equal fields, equal record clocks carry equal device and share. The law the source states for all inputs holds exactly here. |
| Merging.MergeAssociative | src/merge.rs:14-41 | Merging is associative on all snapshots of one record, coherent or not. |
| Merging.MergeIdempotent | src/merge.rs:14-41 | Merging a snapshot with itself changes nothing. |
| Merging.MergeKeepsCoherence | src/merge.rs:14-41 | A merge of two snapshots coherent with a third is coherent with it. |
| Merging.FoldIsJoin | src/merge.rs:47-56 | Folding any sequence gives per id a record each of whose components comes from one of its snapshots and none of whose snapshots is newer, coherent or not. |
| Merging.StateIsUnique | src/merge.rs:47-56 | A coherent set of snapshots has exactly one merged state. |
| Merging.MergeAllDependsOnSetOnly | src/merge.rs:47-56 | Any two sequences with the same coherent set of snapshots fold to the same map, whatever the order or the repeats. |
| Merging.DeletedIff | src/record.rs:71-76 | A folded record is deleted if and only if some tombstone clock among its snapshots is above every field clock in any of them. |
| Merging.LiveIff | src/record.rs:71-76 | A folded record is live if and only if some snapshot is more than a tombstone and no tombstone clock is above every field clock. |
| Merging.NoResurrection | src/merge.rs:33 | A tombstone above every field clock of its record deletes it in every sequence that contains it. |
| Merging.LaterEditSurvives | src/record.rs:71-76 | A field write that no tombstone clock is above keeps the record live in every sequence that contains it. |
| LogCodec.ParseFrames | src/vault.rs:1174-1192 | The parsing loop computes the frame decoder, with both of its error cases. |
| LogCodec.FrameLayout | src/vault.rs:706-717 | The bytes of a frame that fits: 4 bytes of length, lowest first, that count what follows, then the 16 bytes of the id, then the blob. |
| LogCodec.ParseInvertsWrite | src/vault.rs:706-717 | Parsing the concatenation of written frames that fit 32 bits returns exactly those frames. |
| LogCodec.WriteInvertsParse | src/vault.rs:1174-1192 | Accepted bytes are exactly the bytes of the frames they parse to. |
| LogCodec.FrameReadsBackIff | src/vault.rs:706-717 | One written frame reads back if and only if 16 + blob length is below 2^32, where the length cast is exact. |
| LogCodec.AppendKeepsFrames | src/vault.rs:679-696 | Appending a frame keeps all earlier frames and adds the new one. |
| LogCodec.TruncationAcceptedIff | src/vault.rs:1174-1192 | A truncation of a valid log is accepted if and only if it ends on a frame boundary, and then yields exactly the frames before it. |
| LogCodec.SplitKeyList | src/vault.rs:1196-1204 | A wrapped list is accepted if and only if it is a non-empty multiple of 32 bytes, and the keys then concatenate to it. |
| LogCodec.KeyListDetermined | src/vault.rs:370-379 | The concatenated bytes determine the key list. |
| PayloadCheck.CheckString | src/vault.rs:1123-1165 | One string is refused with the reason the source gives, exactly when it is not clean for the kind. |
| PayloadCheck.ValidatePayload | src/vault.rs:1123-1165 | The worklist terminates on every finite JSON tree and accepts if and only if the kind is PrivateKey or every string at any depth is clean. |
| PayloadCheck.CleanIff | src/vault.rs:1123-1165 | A payload is clean if and only if every string standing anywhere in it is. |
| PayloadCheck.AcceptableIff | src/vault.rs:1123-1165 | A payload is accepted if and only if its kind is PrivateKey or no string at any depth has the marker at any position, a line break, or (except in snippets) a double quote. |
| Keyrings.TryOpen | src/vault.rs:872-884 | The loops over all held keys, newest first, find the record if and only if some held key sealed the frame under its own entry id. |
| Keyrings.FindShare | src/vault.rs:119-121 | The linear search finds a share if and only if it is held. |
| Keyrings.WithList | src/vault.rs:531-537 | Replacing or adding a list keeps share ids unique and stores exactly the updated keyring. |
| Keyrings.HeldShareEpochs | src/vault.rs:858-864 | The fingerprint lists each held share once with its key count. |
| Keyrings.SameEpochSet | src/vault.rs:1169-1171 | Equal length plus inclusion decides equality of two fingerprints as maps. |
| Keyrings.AbsorbIsJoin | src/vault.rs:504-516 | When the lists of a share are leading parts of one sequence (H4), absorbing is the join of the prefix order: it loses no key, ignores stale lists, keeps lists non-empty and does not depend on arrival order. |
| Keyrings.GrowthKeepsOpen | src/vault.rs:872-884 | A frame that opened before the keyring grew still opens. |
| Keyrings.DivergentListLosesFrames | src/vault.rs:506-516 | Without H4 a longer list replaces the old one, and a frame keeps opening if and only if its key is in the new list or in another share's. |
| VaultSpec.ReplayFromPrefix | src/vault.rs:757-779 | Folding the tail of the log onto the fold of a leading part is folding the whole log. |
| VaultSpec.ReplayIsJoin | src/vault.rs:727-747 | A replay is, per id, the join of the records the keyring opens. |
| VaultSpec.ReplayDependsOnReadable | src/vault.rs:727-747 | Two logs with the same coherent set of openable records replay to the same state, whatever their order, repeats and other keys. |
| VaultSpec.EditReadsBack | src/vault.rs:613-649 | If the issued clock is above everything seen of the record, after an edit it is live, of the same kind and share, has the payload's values, changed fields at the new clock, and keeps omitted fields and the clocks of unchanged ones; no other record changes. (A field the payload omits is not deleted.) |
| VaultSpec.RemoveReadsBack | src/vault.rs:652-673 | Likewise after a removal the record is deleted at the new clock, is found under no name, keeps its kind, share and fields, and no other record changes. |
| VaultSpec.AddReadsBack | src/vault.rs:576-609 | After an add under a new id the record is live (unless a tombstone is added), of the kind and in the share, with exactly the payload's values all at the issued clock; it is found under the name its payload holds and under no other; no other record changes. |
| VaultSpec.AppliedIsShown | src/vault.rs:961-985 | A pulled frame that opens shows in memory at once: the record's state covers it. Nothing that showed before is hidden. |
| VaultSpec.CompactionIsUsed | src/vault.rs:801-828 | After a compaction that writes a snapshot, an open under the same keyring has nothing left to replay; after any replay at most 10000 frames are left, unless a snapshot would not be smaller than the log. |
| VaultSpec.CountersAreLeast | src/vault.rs:961-985 | A pulled entry leaves the least Lamport counter not below either copy nor, when it opens, below its clock; a cursor is set to the least one not below either copy nor the one given; only a reset sets it back. |
| VaultSpec.StaleKeyringLosesFrames | src/vault.rs:1098-1103 | Without H6: after a key is added through a handle with a stale keyring, a frame keeps opening on disk if and only if that handle held its key or it is under the new one. |
| VaultSpec.AbsorbedMetaIsLeast | src/vault.rs:1067-1074 | Absorbing the disk's counters is the join of both copies: neither is rolled back, nothing else is added, and absorbing again changes nothing. |
| VaultRuns.SnapshotRefinesReplay | src/vault.rs:757-779 | Under the directory invariant, folding through snapshot and tail equals replaying the whole log, for every keyring the directory ever had. |
| VaultRuns.LocalStepKeepsInv | src/vault.rs:801-828 | Every locked section that writes keys in order (H6) keeps the invariant: a fingerprint names at most one keyring, the snapshot is a replay of what it covers, no handle's counter exceeds the disk's. |
| VaultRuns.LocalStepGrows | src/vault.rs:1067-1087 | Every section keeps the earlier log and the Lamport counter; issuing a clock raises the counter by exactly one. |
| VaultRuns.NoClockReuse | src/vault.rs:1067-1087 | Over any interleaving of any number of handles, stale ones included and whatever any of them writes to the keyring, a clock issued later is strictly greater and of the same device. |
| VaultRuns.OpenEqualsReplay | src/vault.rs:727-747 | At every point of a run with orderly key writes (H6) an open, and a reload by any handle, give the replay of the whole log, with the compaction they may trigger and without it. |
| VaultRuns.ReloadIsSteps | src/vault.rs:338-342 | What the class does on a reload is the run's reload step, followed by its compaction step when the uncovered tail is long. |
| VaultRuns.OpenIsSteps | src/vault.rs:310-332 | Likewise for an open. |
| VaultRuns.EqualFingerprintTrustsSnapshot | src/vault.rs:1169-1171 | Two keyrings with one fingerprint make a snapshot of the one taken over unchecked under the other, for every log: why each keyring change must raise a count. |
| Vault.Vault.Open | src/vault.rs:310-332 | Opening unlocks and replays: the new handle and the directory are the replayed view. |
| Vault.Vault.Reload | src/vault.rs:338-342 | A reload takes over the meta file and replays; the keyring is not re-read. |
| Vault.Vault.HasShare | src/vault.rs:432-434 | True exactly for held shares. |
| Vault.Vault.ShareEpoch | src/vault.rs:356-361 | Key count less one, 0 for a share not held. |
| Vault.Vault.ShareKeyList | src/vault.rs:370-379 | The whole list, empty for a share not held. |
| Vault.Vault.PushShareKey | src/vault.rs:519-528 | The whole view after appending a next key, on disk too. |
| Vault.Vault.RotateShare | src/vault.rs:494-502 | Succeeds if and only if the share is held; then the list has one more key and the result is the new epoch, else nothing changes. |
| Vault.Vault.AbsorbShareKey | src/vault.rs:506-516 | Refuses only an empty list; the view after is the absorbed one, unchanged for a list that is not longer. |
| Vault.Vault.SetVaultKey | src/vault.rs:396-408 | Succeeds if and only if the log is empty and the list is not; then the default list is replaced and the state cleared. |
| Vault.Vault.Find | src/vault.rs:554-560 | Returns a live record of the kind and name, or none when there is none. |
| Vault.Vault.NextClock | src/vault.rs:1078-1087 | The clock is one above both copies of the counter and is on disk before it is returned. |
| Vault.Vault.Append | src/vault.rs:679-696 | Succeeds if and only if the share is held; then exactly one frame, sealed under the last key of the share, is added and the record merged. (What the choice of key means is in Rotation.RemovedReadsWriteIff.) |
| Vault.Vault.AddIn | src/vault.rs:576-609 | Succeeds if and only if the payload is acceptable, the share is held and no live record has the name; each failure has its own error, also exactly; on success the view is that of issuing a clock and appending the new record (VaultSpec.AddReadsBack), else nothing changes. |
| Vault.Vault.StampEdited | src/vault.rs:628-640 | The stamping loop gives a changed field the new clock and an unchanged one its old clock. |
| Vault.Vault.Edit | src/vault.rs:613-649 | Each failure has its own error: a refused payload and a missing record exactly, and a share not held only when a match is in one; the first two change nothing, the last uses up a clock; on success the view is that of issuing a clock and appending the edited record. |
| Vault.Vault.Remove | src/vault.rs:652-673 | Fails with no such record if and only if there is none, and then changes nothing; otherwise only when a match is in a share not held; on success the view is that of issuing a clock and appending the tombstone. |
| Vault.Vault.ApplyRemoteEntry | src/vault.rs:961-985 | The frame is kept whether or not it opens; an opened one is merged and raises the counter to its clock. (docs/architecture.md:79 says one more; the code does not add one.) |
| Vault.Vault.SetSyncCursor | src/vault.rs:911-917 | The cursor becomes the maximum of both copies and the argument. |
| Vault.Vault.ResetSyncCursor | src/vault.rs:924-929 | The cursor becomes 0 in the handle and on disk. |
| Vault.Vault.RawEntriesTagged | src/vault.rs:944-955 | Each frame in log order with the share inside its record, or the default share when it does not open. |
| Vault.Vault.SnapshotSeed | src/vault.rs:757-779 | The snapshot is used if and only if it covers no more frames than there are and its fingerprint is the keyring's. |
| Vault.Vault.FoldFrames | src/vault.rs:757-779 | The loop folds the openable frames of a sequence onto a state. |
| Vault.Vault.ReplayLog | src/vault.rs:727-747 | The view after a replay, with the compaction a long uncovered tail triggers. |
| Vault.Vault.Compact | src/vault.rs:801-828 | The state is the replay of the whole log; a snapshot is written if and only if the log is longer than the state. |
| RelayServer.Server.HandleRotate | src/relay.rs:434-482 | The tables and reply of the relay model: replay check, guarded epoch bump, then the loop that re-wraps the live rows. |
| RelayServer.Server.HandleShareGrant | src/relay.rs:497-541 | Likewise: the epoch becomes the maximum and the loop upserts membership rows. |
| RelayServer.Server.HandleShareRotate | src/relay.rs:546-630 | Likewise: replay check, guarded epoch bump or first insert, removals, then re-wrapping of existing rows only. |
| RelayServer.Server.HandlePush | src/relay.rs:797-844 | The insert-or-ignore loop stores each new id once under the next number and counts the new rows. |
| RelayServer.Server.HandlePull | src/relay.rs:884-936 | The reply is the filtered rows past the cursor and the head, not below the cursor. |
| RelaySpec.StoreAllAppends | src/relay.rs:797-844 | A push keeps every old row, adds only rows that were sent, numbered past the counter, and leaves every id it sent stored. |
| RelaySpec.PullReturnsExactly | src/relay.rs:902-921 | A pull returns a row if and only if it is past the cursor and of the default share or a share the device is a member of, and in the order of their numbers. |
| RelayRuns.SeenUntilExpiry | src/relay.rs:208-227 | A signature that was new is refused for exactly 300 seconds, and other signatures are judged as before. |
| RelayRuns.RevocationShutsOut | src/relay.rs:396-422 | A revocation is accepted exactly from a device that may sync, for a known target; from then on whatever the target asks is refused and changes nothing, and other rows stay. |
| RelayRuns.HealFindsRotation | src/relay.rs:696-728 | A live device listed in a rotation that asks for its list gets a list the rotation sent it, and the new epoch. |
| RelayRuns.MembershipsAreRows | src/relay.rs:635-665 | A device is told of exactly the shares it has a row for, each with its list and epoch. |
| RelayRuns.HealFindsGrant | src/relay.rs:635-665 | A device that may sync and was granted a share finds it among its shares, with a list the grant sent it and the greater of the grant's epoch and the one recorded before. |
| RelayRuns.RunKeepsDevices | src/relay.rs:396-422 | On every run a revoked device is unapproved and has no wrapped list. |
| RelayRuns.RevocationIsSticky | src/relay.rs:735-795 | Only a recovery that the relay accepts ends a revocation, and until then the row does not change, whatever else is tried. |
| RelayRuns.ApprovedTracesToRoot | src/relay.rs:362-392 | On every run every approved device traces back, through accepted approvals by devices approved at the time, to the bootstrap or an accepted recovery; attempts the relay refused do not count. |
| RelayRuns.OneBootstrap | src/relay.rs:304-358 | At most one device of a vault is admitted by bootstrap. |
| RelayRuns.BootstrapFounds | src/relay.rs:304-358 | The first enrolment founds the vault: its device may sync, exactly the recovery key it names admits devices, and the first rotation accepted is the one to epoch 1. |
| RelayRuns.StepRaisesEpochs | src/relay.rs:434-459 | No event lowers or forgets the vault's epoch or a share's. |
| RelayRuns.RotationsStrictlyIncrease | src/relay.rs:546-589 | Rotations of one target that took effect carry strictly increasing epochs, whatever is replayed in between. |
| RelayRuns.RotationEffect | src/relay.rs:434-482 | A rotation that takes effect raises the epoch by exactly one and touches no entry and no membership. |
| RelayRuns.RotateAcceptedIff | src/relay.rs:434-459 | A rotation is accepted if and only if it is genuine, the clocks differ by at most 300 seconds, its sender is approved and not revoked, its signature is not in the unexpired cache, and it names the epoch after the vault's; whatever it wraps. Refused, it changes nothing but the cache. |
| RelayRuns.ShareRotateAcceptedIff | src/relay.rs:546-589 | Likewise for a share: no epoch is recorded yet, or the one named follows it. Accepted, it sets that epoch. |
| RelayRuns.AcceptedOnce | src/relay.rs:208-260 | With relay time not going back, a signature accepted when its timestamp was not after relay time is never accepted again. |
| RelayRuns.NoSecondAcceptanceIff | src/relay.rs:208-260 | One acceptance rules out all later ones if and only if the timestamp is not after relay time: the promise fails for a clock that runs ahead, because the window outlives the cache entry. |
| RelayRuns.RunKeepsTable | src/relay.rs:797-844 | On every run the entry table is append-only with increasing numbers and unique ids. |
| ProtocolSteps.DirStep | src/sync.rs:95-157 | Every action of a device performs at most one locked section of its directory. |
| ProtocolKeys.StepKeepsKeys | src/vault.rs:504-537 | Every action keeps all key lists, held, wrapped or offered, leading parts of one sequence per share, and every keyring only grows (H4, H6). |
| Fleet.FoldFromSnapshotIsLogged | src/vault.rs:757-779 | Whichever keyring the snapshot was made with, a fold from it yields only components of records in the log. |
| Fleet.IssueKeepsIssued | src/vault.rs:613-649 | A record drafted with a fresh clock agrees with every record issued before, although an edit keeps old clocks on unchanged fields. |
| Fleet.MoveKeepsInv | src/vault.rs:679-696 | With no hypothesis on keys, cursors or rounds, every section of every handle of every device keeps: a clock names one record, an id names one frame, snapshots of one record are coherent and of one share, and memory and snapshots are built from records in the log. |
| Fleet.ClocksAreDistinct | src/vault.rs:1062-1087 | On every such run clocks issued by two different moves differ, whichever devices and handles issue them. |
| Fleet.SnapshotsAreCoherent | src/merge.rs:14-41 | On every such run everything in the logs of any two devices, and whatever any keyrings read from them, is coherent, which discharges the condition of the merge laws. |
| Fleet.TakenIsShown | src/vault.rs:961-985 | On every such run a record that a handle took in, pulled and opened or appended itself, shows in its memory from then on, until it builds its memory anew, whatever keys come and go. |
| ProtocolWorld.ActionIsMove | src/sync.rs:95-157 | Every action of the system is a move of the fleet of its vault directories. |
| ProtocolWorld.StepKeepsWorld | src/vault.rs:757-779 | Under H4 and H6 every action moreover keeps: frames are sealed under a key of their record's share, snapshots are sound, and every handle's memory is built from what its log and keyring open. |
| ProtocolTags.PushKeepsTags | src/relay.rs:797-844 | A push of a log whose wrongly tagged frames are all stored already leaves every relay tag right. |
| ProtocolTags.StepKeepsTags | src/vault.rs:939-955 | Every action keeps relay tags right, together with the fact that a frame its holder cannot open is at the relay. |
| ProtocolTags.StaleKeyringMisfiles | src/vault.rs:939-955 | Without H6: a push through a stale keyring files an unstored frame of a named share that it does not open under the default share. |
| ProtocolRights.StepKeepsRights | src/relay.rs:902-921 | Every action keeps a device's keys, log entries and pulled entries within shares it created or had a membership row for. |
| ProtocolCursors.PullStarts | src/relay.rs:902-935 | What a pull returns covers every owed entry up to the head (H1): past the cursor it pulls from, and for a round that gained a share from the start, whatever other handles carry. |
| ProtocolCursors.ApplyGoesOn | src/sync.rs:143-155 | An entry leaves the pending pull only once it is in the log, applied or skipped. |
| ProtocolCursors.FinishCompletes | src/sync.rs:143-155 | A round that runs to its end leaves every cursor, stale ones included, complete, for the shares it gained too. |
| ProtocolCursors.AbortKeepsCursors | src/sync.rs:103-125 | An interrupted round that gained nothing, or is interrupted while all cursors are zero, loses nothing (H2). |
| ProtocolCursors.GrantOwes | src/sync.rs:184-208 | A grant owes a device no stored entry it lacks, when the device does not hold the share or still belongs to it, or the share was not granted before (H3). |
| ProtocolCursors.StepKeepsCursors | src/sync.rs:95-157 | Every action that respects H2 and H3 for a device keeps its cursors, on disk and in any handle, complete. |
| ProtocolCursors.SplitPullIsMissed | src/relay.rs:902-935 | Without H1: an entry stored between the row query and the head query is not returned, yet the cursor passes it. |
| ProtocolCursors.InterruptedGainIsMissed | src/sync.rs:103-125 | Without H2, before the rewind: after a round stopped once it gained a share, an owed entry of the share below the cursor is missed, the next heal does not gain the share again, and no pull from the cursor returns the entry. |
| ProtocolCursors.StaleCursorUndoesRewind | src/vault.rs:924-929 | Without H2, after the rewind: a write by another handle that still carries a cursor undoes the rewind, and when the round then stops, every owed entry up to that cursor not in the log is missed and no pull returns it. |
| ProtocolCursors.RegrantIsMissed | src/sync.rs:199-206 | Without H3: granting a share again to a device that still holds it makes it miss every entry below its cursor it was not sent. |
| ProtocolRuns.RunKeepsInv | src/sync.rs:95-157 | The invariants of keys, frames, tags and rights hold in every state of every run of any number of devices and the relay (cursors need H2 and H3 besides). |
| ProtocolRuns.RunGrows | src/vault.rs:679-696 | Over every run logs, counters, keyrings, frames, issued records and relay entries only grow. |
| ProtocolRuns.OpenableForever | src/vault.rs:504-516 | A frame a device can open it can open at every later point of the run. |
| ProtocolRuns.SystemIsFleet | src/sync.rs:95-157 | The vault directories of every run of the system go through a run of the fleet, step by step, so what holds of fleets holds of systems. |
| ProtocolRuns.OpenIsReplay | src/vault.rs:727-779 | On every run opening a vault through snapshot and tail gives the replay of its whole log. |
| ProtocolRuns.MemoryIsBelowReplay | src/vault.rs:338-342 | On every run what a handle has in memory is below the replay of the log in the order of the merge. |
| ProtocolRuns.TakenStaysShown | src/vault.rs:961-985 | And not too little: whatever a handle took in shows in its memory at every later point of the run until the handle is closed, through reloads and compactions too. |
| ProtocolRuns.DraftsCanBeAppended | src/vault.rs:679-696 | On every run the share of a record that got its clock is held, so the append that follows does not fail and no clock is lost. |
| ProtocolRuns.RelayTagsAreRight | src/vault.rs:939-955 | On every run the share stored with a relay entry is the share inside its sealed record, and of its key. |
| ProtocolRuns.UnreadableIsStored | src/vault.rs:939-955 | On every run a frame its holder cannot open is at the relay already, so re-pushing it is ignored. |
| ProtocolRuns.Confinement | src/relay.rs:902-921 | On every run a device that neither created a share nor ever had a membership row for it has no key, no log entry and no record of it. |
| ProtocolRuns.CursorIsComplete | src/sync.rs:143-155 | On every run that respects H2 and H3 for a device, a relay entry at or below any of its cursors, in the default share or in a share it holds and belongs to, is in its log, wherever a round stopped, unless the share was gained in a round still under way. |
| ProtocolRuns.TombstoneStays | src/vault.rs:727-828 | On every run, once a tombstone is in a device's log and readable, the record is deleted at every later point at which the tombstone is above every field clock the device can read: after an open, a reload, a compaction, and an open from the compaction. |
| ProtocolLogs.StepKeepsOnce | src/sync.rs:107-155 | Every action keeps: no log holds an id twice, what two logs share is at the relay, and what a round is still to apply, less what it skips, is not in the log, although other handles append meanwhile. |
| ProtocolLogs.EntriesStandOnce | src/sync.rs:107-155 | In every state of every run no log holds two frames with one id, whatever rounds were interrupted and repeated, and a frame that two devices have is at the relay. |
| Convergence.PushedIsStored | src/sync.rs:107-117 | A device that read and pushed its log within the quiet has nothing that is not at the relay. |
| Convergence.PulledIsCaught | src/sync.rs:119-155 | A device that completed a pull after all that the participants have was stored has every entry it is owed. |
| Convergence.SharesConverge | src/sync.rs:95-157 | After a quiet sweep of any set of devices, in whose second half only they push, for any interleaving and whatever revoked, pending or offline devices there are, two of these devices agree on every record of every share whose list they hold alike and to which both belong. |
| Convergence.Converges | src/sync.rs:95-157 | After a quiet sweep those of its devices that have the same keyring and belong to the shares they hold open to identical states. |
| Causality.IssuedClockBeatsMemory | src/vault.rs:957-985 | On every run of a fleet with H5 and nothing else an issued clock beats every record, tombstone and field clock in the handle's memory. |
| Causality.AppliedIsOutrunIff | src/vault.rs:961-985 | After a pulled entry is kept, the next clock is above it if and only if it was opened or was behind the counter: exactly what H5 is for. |
| Causality.WriteIsAtomic | src/vault.rs:679-696 | Whatever else happens between issuing a clock and appending, a write leaves the handle as if the two sections were one. |
| Causality.AddIsRead | src/vault.rs:576-609 | On every such run, H5 or not, when an add is through the record is in memory with exactly the payload's values, of the kind and in the share, and is found under the name in its payload and no other. |
| Causality.EditIsRead | src/vault.rs:613-649 | On every such run, when an edit is through the record is live, of the same kind and share, and holds exactly the payload's values, with omitted fields and unchanged clocks kept. |
| Causality.RemovalIsRead | src/vault.rs:652-673 | On every such run, when a removal is through the record is not live. |
| Rotation.RotationReachesRows | src/relay.rs:434-482 | An accepted rotation raises the epoch by exactly one, leaves the whole new list with every listed live device, and does not touch revoked rows. |
| Rotation.ListedDeviceReads | src/sync.rs:168-182 | After it, a listed live device that heals once, while no accepted request has replaced its list, opens everything sealed under any key up to the new one, from then on. |
| Rotation.RotatorSealsUnder | src/device.rs:168-215 | Until it takes up a newer list, everything a handle of the device that rotated appends to the default share is sealed under a key of that list: under the new key if and only if the handle holds the whole list. |
| Rotation.ReloadShowsRecord | src/vault.rs:338-342 | And what it opens is covered by its state after an open, and after a reload by any handle that holds the list. |
| Rotation.RevokedListNeverChanges | src/relay.rs:696-728 | A revoked device's default list never changes as long as the relay accepts no recovery of it and it mints no key itself, which both take the recovery phrase; refused attempts change nothing. |
| Rotation.RevokedDeviceStaysOut | src/device.rs:168-215 | After an accepted rotation, a revoked device without the new key opens no frame sealed under it or any later default-share key in every such continuation, with its disk keyring or any handle's. |
| Rotation.RevokedReadsIff | src/relay.rs:696-728 | In every such continuation a revoked device opens a default-share frame, whoever sealed it and whenever, if and only if it held its key at revocation. |
| Rotation.RevokedReadsWriteIff | src/device.rs:168-215 | What a revoked device reads of others: a default-share record appended by any handle of any device is opened by it if and only if that handle's list is no longer than the one the revoked device was left with. |
| Rotation.ReadsWriteIff | src/vault.rs:679-690 | At any two points of a run, what any handle of any device appends to any share another device opens if and only if the handle's list of the share is no longer than the other device's. |
| Rotation.RemovedMemberStaysOut | src/device.rs:323-366 | After an accepted removal from a share, the removed device opens no frame under the new key or any later one, on disk or in any handle, as long as the relay accepts no new grant to it, whether or not it had taken up the share's keys (H4). |
| Rotation.RemovedReadsWriteIff | src/device.rs:323-366 | So in every such continuation a record of the share appended by any handle of any device, before or after, is opened by the removed device if and only if that handle's list is no longer than its own, which stays shorter than the new one: nothing written by a handle that has the new list is opened. |
| Rotation.ShareRotationReachesRows | src/relay.rs:546-630 | An accepted rotation of a share drops the rows of those it removes and leaves the whole new list and its epoch with every other listed member. |
| Rotation.ListedMemberReads | src/sync.rs:184-208 | After it, a listed member that fetches its shares while no accepted request has replaced its row, and takes the share's offer, opens everything sealed under any key up to the new one, from then on. |
| Sync.AskPush | src/relay.rs:797-844 | A push succeeds if and only if the device may sync; then the tables are those of storing every entry and the count is the growth of the table. |
| Sync.HealDefaultShare | src/sync.rs:168-182 | Succeeds if and only if the relay answers and a list it needs unwraps for this device; then the vault is the healed one, else unchanged. |
| Sync.AbsorbMembership | src/sync.rs:184-208 | Takes a list exactly when the share is missing or behind, and tells whether the share is new. |
| Sync.OfferIsHeld | src/sync.rs:184-208 | After a heal the device holds at least the list its row offers, when the row's epoch is not behind the list and the list continues the device's own. |
| Sync.HealShares | src/sync.rs:168-210 | Succeeds if and only if the device may sync and each list it lacks or is behind on, the default one and those of its membership rows, unwraps for it and is not empty, told over the tables and keyring before. Then every row's list is taken exactly when needed, other lists are as before, and the result is true if and only if some share was gained. |
| Sync.ApplyRows | src/sync.rs:143-155 | Every pulled id ends in the log, skipped or applied; each applied row that opens shows in memory, and nothing shown before is hidden; the count is the growth of the log. |
| Sync.SyncOnce | src/sync.rs:95-157 | One round is a trace of the protocol's device steps. It succeeds if and only if the device may sync and each list it lacks or is behind on unwraps for it and is not empty, told over the old tables and keyring. Then everything the vault had is at the relay, everything past the old cursor (all of it after a gain) is in the log, what of it is new and opens shows in memory, and the cursor has reached the head; on failure relay, log and counters are unchanged. |
| SyncRuns.TraceReaches | src/sync.rs:95-157 | Started in any reachable system, the steps of a round are actions of the system and lead to a reachable system. |
| SyncRuns.RoundStaysComplete | src/sync.rs:143-155 | So after any round of the sync code, finished or failed at any point, each owed relay entry at or below the vault's cursor is in its log, but for shares that a failed round gained. |
| SyncRuns.FailedRoundIsSafe | src/sync.rs:95-157 | A failed round that gained nothing, or that fails while all cursors are zero, can be given up and leaves a run that respects H2. |
| DeviceClient.WrapForRemaining | src/device.rs:186-206 | The loop wraps the whole list for exactly the devices that are not revoked (approved ones only, for a share), less the one that goes. |
| DeviceClient.WrapForNamed | src/device.rs:221-247 | Succeeds if and only if the relay lists every named device; then the list is wrapped for exactly these. |
| DeviceClient.SendRotation | src/device.rs:189-214 | Succeeds if and only if the device may sync, the list is one longer than the vault's epoch counts and the request was not sent before; then every device not revoked has the whole list and the epoch has grown by exactly one. |
| DeviceClient.RevokeAndRotate | src/device.rs:168-215 | Succeeds if and only if the device may sync, the target is another device the relay lists, the default list is the one of the relay's epoch and the request was not sent before. Then the epoch is one higher, the target is out, every device not revoked has the whole new list, and both requests were accepted in the form the rotation theorems assume; on failure after minting, the key stays and the epoch does not move. |
| DeviceRuns.RevokeAndRotateIsRun | src/device.rs:168-215 | What the client code did on success is three actions of a run (revoke, mint, rotate) that end in a rotation to the new list with the target revoked, so the rotation theorems hold of it. |
| DeviceClient.CreateShare | src/device.rs:252-291 | Succeeds if and only if the payload is acceptable, no share has the name, the device may sync and all named devices are listed. Then the share is held with one key, its name is one new readable record of the default share, and exactly the named devices and this one gain rows; a late failure leaves the share held and not granted. |
| DeviceClient.ShareAdd | src/device.rs:295-317 | Succeeds if and only if the share is held, the device may sync and all named devices are listed; then exactly these rows hold the whole list. |
| DeviceClient.ShareRemove | src/device.rs:323-366 | Succeeds if and only if the share is held, the device may sync, the target is listed, the list held is the one of the relay's epoch, if there is one, and the request was not sent before. Then the removed row is gone, every other member that is an approved device has the new list, other rows are as before and the epoch is the new list's. |
| DeviceRuns.ShareRemoveIsRun | src/device.rs:323-366 | What the client code did on success is two actions of a run (mint, rotate the share) that end in the removal of the member and in the rotation of the share to the new list. |

## Left out

- Cryptography: key derivation, AEAD, key agreement and signatures are ideal, as said above.
- HTTP, JSON, base64 and MessagePack: requests and records are values; malformed transport (a bad
  base64 field half-way through a request, for instance) has no counterpart.
- Relay handlers are one step each, and a request is handled at one relay time; the source reads
  the time twice and a rotation's updates are separate statements.
- The relay's rows of other vaults show only as jumps of the sequence counter and as uses of the
  shared signature cache.
- The fetch of `/v1/wrapped` and the absorbing of its list are one step of a round; the fetch of
  `/v1/shares` and each absorbing are separate steps.
- In the system runs every device may issue a clock for any draft its memory allows: the duplicate
  name check and the payload check only remove runs. They are modelled in the class `Vault`.
- A joining device starts with the wrapped list it was given (or the phrase's first key); its time
  with a throwaway key is modelled in the vault class and in `VaultRuns`, not in the system runs.
- The Lamport counter, cursors and sequence numbers are unbounded; the source has 64 bits.
- Legacy keyring migration, import and export, device names, short codes and their ambiguity, the
  relay URL, and the approval polling of a joining device.
- File permissions, fsync, temporary files, and a corrupt or missing snapshot file (it is read as
  no snapshot).
- The daemon's timing, backoff and WebSocket notifications; loss and rebuild of the relay database.
- The command line, passphrase prompts and SSH configuration text.
- Sync.SyncOnce: runs without other writers in between; interleavings are covered by `Protocol`.
- DeviceClient.RevokeAndRotate: runs without other requests in between, so the revocation of a
  device that was just found is not refused.
- Rotation.RevokedDeviceStaysOut: assumes the revoked device had not already minted the new key
  itself, which takes the recovery phrase.
