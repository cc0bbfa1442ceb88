/**
 The vault: one directory's files, and the handles open on them.

 Every method's contract names the change it makes on values (module VaultSpec). Random ids and
 keys and the wall clock are parameters. The advisory lock makes each locked section one step.
 */
module Vault {
  import opened Wrappers
  import opened Records
  import opened Merging
  import opened Keyrings
  import opened VaultSpec
  import opened PayloadCheck
  import opened VaultErrors

  datatype SnapshotFile = SnapshotFile(covered: nat, shares: seq<(Uuid, nat)>, records: State)

  class VaultDir {
    var meta: Meta
    var shares: seq<ShareKeys>
    var log: seq<Frame>
    var snapshot: Option<SnapshotFile>
    ghost var ring: Ring
    ghost var pinned: map<Uuid, nat>

    ghost predicate Valid()
      reads this
    {
      && Stores(shares, ring)
      && (snapshot.Some? ==> PairsOf(pinned, snapshot.value.shares))
    }

    ghost function Value(): Disk
      reads this
    {
      Disk(meta, ring, log,
           if snapshot.None? then None
           else Some(Snapshot(snapshot.value.covered, pinned, snapshot.value.records)))
    }

    /** The files of a freshly created vault: one default-share key, zero counters, an empty log. */
    constructor (device: Uuid, key: Key)
      ensures Valid() && Value() == Disk(Meta(device, 0, 0), map[NIL := [key]], [], None)
    {
      meta := Meta(device, 0, 0);
      shares := [ShareKeys(NIL, [key])];
      log := [];
      snapshot := None;
      ring := map[NIL := [key]];
      pinned := map[];
      new;
      assert shares[0].id == NIL;
    }
  }

  class Vault {
    const dir: VaultDir
    var meta: Meta
    var shares: seq<ShareKeys>
    var state: State
    ghost var ring: Ring

    ghost predicate Valid()
      reads this, dir
    {
      && dir.Valid()
      && Stores(shares, ring)
      && NonEmptyLists(ring)
      && Keyed(state)
      && (dir.snapshot.Some? ==> Keyed(dir.snapshot.value.records))
    }

    ghost function Now(): View
      reads this, dir
    {
      View(dir.Value(), Handle(meta, ring, state, None))
    }

    /** Unlocks an existing vault and replays its log. */
    constructor Open(dir: VaultDir)
      requires dir.Valid() && NonEmptyLists(dir.ring)
      requires dir.snapshot.Some? ==> Keyed(dir.snapshot.value.records)
      modifies dir
      ensures this.dir == dir && Valid()
      ensures Now() == Replayed(Unlocked(old(dir.Value())))
    {
      this.dir := dir;
      meta := dir.meta;
      shares := dir.shares;
      ring := dir.ring;
      state := map[];
      new;
      ReplayLog();
    }

    /** Picks up what other handles on the directory wrote; the keyring is not re-read. */
    method Reload()
      requires Valid()
      modifies this, dir
      ensures Valid()
      ensures Now() == Replayed(Refreshed(old(Now())))
    {
      meta := dir.meta;
      ReplayLog();
    }

    // ---- keys ----------------------------------------------------------------

    method HasShare(share: Uuid) returns (held: bool)
      requires Valid()
      ensures held <==> share in ring
    {
      var at := FindShare(shares, share, ring);
      held := at.Some?;
    }

    /** The current epoch of a share: its number of keys less one, or 0 when it is not held. */
    method ShareEpoch(share: Uuid) returns (epoch: nat)
      requires Valid()
      ensures epoch == if share in ring then |ring[share]| - 1 else 0
    {
      var at := FindShare(shares, share, ring);
      epoch := if at.Some? then |shares[at.value].keys| - 1 else 0;
    }

    method ShareKeyList(share: Uuid) returns (keys: seq<Key>)
      requires Valid()
      ensures keys == ListOf(ring, share)
    {
      var at := FindShare(shares, share, ring);
      keys := if at.Some? then shares[at.value].keys else [];
    }

    method SetShareKeys(share: Uuid, keys: seq<Key>)
      requires Valid() && keys != []
      modifies this, dir
      ensures Valid() && Now() == WithRing(old(Now()), old(ring)[share := keys])
    {
      shares := WithList(shares, share, keys, ring);
      ring := ring[share := keys];
      WriteKeyring();
    }

    method WriteKeyring()
      requires Valid()
      modifies dir
      ensures Valid() && Now() == WithRing(old(Now()), ring)
    {
      dir.shares, dir.ring := shares, ring;
    }

    /** Appends a share's next epoch key, creating the share if it is absent. */
    method PushShareKey(share: Uuid, key: Key)
      requires Valid()
      modifies this, dir
      ensures Valid() && Now() == KeyPushed(old(Now()), share, key)
    {
      var keys := ShareKeyList(share);
      SetShareKeys(share, keys + [key]);
    }

    /** Rotates a share this device holds to `key`, its next epoch's key. */
    method RotateShare(share: Uuid, key: Key) returns (r: Result<nat, VaultError>)
      requires Valid()
      modifies this, dir
      ensures Valid()
      ensures r.Ok? <==> share in old(ring)
      ensures r.Ok? ==> Now() == KeyPushed(old(Now()), share, key) && r.value == |old(ring)[share]|
      ensures r.Err? ==> Now() == old(Now())
    {
      var held := HasShare(share);
      if !held {
        return Err(NotAMember);
      }
      PushShareKey(share, key);
      var epoch := ShareEpoch(share);
      return Ok(epoch);
    }

    /** Installs a wrapped list; one that is not longer than the list held is ignored. */
    method AbsorbShareKey(share: Uuid, keys: seq<Key>) returns (r: Result<(), VaultError>)
      requires Valid()
      modifies this, dir
      ensures Valid()
      ensures r.Ok? <==> keys != []
      ensures r.Ok? ==> Now() == Absorbed(old(Now()), share, keys)
      ensures r.Err? ==> Now() == old(Now())
    {
      if keys == [] {
        return Err(MalformedKeyList);
      }
      var existing := ShareKeyList(share);
      if existing != [] && |keys| <= |existing| {
        return Ok(());
      }
      SetShareKeys(share, keys);
      assert keys != existing;
      return Ok(());
    }

    /** Swaps in the real default key list of a joining device; refused once anything is logged. */
    method SetVaultKey(keys: seq<Key>) returns (r: Result<(), VaultError>)
      requires Valid()
      modifies this, dir
      ensures Valid()
      ensures r.Ok? <==> old(dir.log) == [] && keys != []
      ensures r.Ok? ==> Now() == KeysInstalled(old(Now()), keys)
      ensures r.Err? ==> Now() == old(Now())
    {
      if dir.log != [] {
        return Err(LogNotEmpty);
      }
      if keys == [] {
        return Err(MalformedKeyList);
      }
      SetShareKeys(NIL, keys);
      state := map[];
      return Ok(());
    }

    // ---- local writes --------------------------------------------------------

    /** Finds a live record of `kind` with the name; any one when several match. */
    method Find(kind: Kind, nameField: string, name: string) returns (found: Option<Uuid>)
      requires Valid()
      ensures found.Some? ==> Matches(state, kind, nameField, name, found.value)
      ensures found.None? ==> forall id :: !Matches(state, kind, nameField, name, id)
    {
      var todo := state.Keys;
      while todo != {}
        invariant todo <= state.Keys
        invariant forall id | id !in todo :: !Matches(state, kind, nameField, name, id)
        decreases todo
      {
        var id :| id in todo;
        var r := state[id];
        if Live(r) && r.kind == kind && nameField in r.fields && r.fields[nameField].value == JString(name) {
          return Some(id);
        }
        todo := todo - {id};
      }
      return None;
    }

    method AbsorbDiskMeta()
      requires Valid()
      modifies this`meta
      ensures Valid() && meta == AbsorbedMeta(old(Now()))
    {
      meta := Meta(meta.deviceId, MaxNat(meta.lamport, dir.meta.lamport), MaxNat(meta.cursor, dir.meta.cursor));
    }

    /** The next clock for a local write, persisted before it is used. */
    method NextClock() returns (clock: Clock)
      requires Valid()
      modifies this`meta, dir`meta
      ensures Valid() && clock == VaultSpec.NextClock(old(Now())) && Now() == ClockIssued(old(Now()))
    {
      AbsorbDiskMeta();
      meta := meta.(lamport := meta.lamport + 1);
      dir.meta := meta;
      clock := Clock(meta.lamport, meta.deviceId);
    }

    /** Seals a record under its share's current key, appends it and merges it into the state. */
    method Append(rec: Record, entry: Uuid) returns (r: Result<(), VaultError>)
      requires Valid()
      modifies this`state, dir`log
      ensures Valid()
      ensures r.Ok? <==> rec.shareId in ring
      ensures r.Ok? ==> Now() == Appended(old(Now()).(me := old(Now()).me.(pending := Some(rec))), entry)
      ensures r.Err? ==> Now() == old(Now())
    {
      var keys := ShareKeyList(rec.shareId);
      if keys == [] {
        return Err(ShareNotHeld);
      }
      var blob := Sealed(keys[|keys| - 1], entry, rec);
      dir.log := dir.log + [Frame(entry, blob)];
      MergeIntoState(rec);
      return Ok(());
    }

    method MergeIntoState(rec: Record)
      requires Keyed(state)
      modifies this`state
      ensures Keyed(state) && state == MergeInto(old(state), rec)
    {
      if rec.id in state {
        var merged := Merge(state[rec.id], rec);
        state := state[rec.id := merged];
      } else {
        state := state[rec.id := rec];
      }
    }

    /** Inserts a new record into a share this device holds, unless the payload or the name is refused. */
    method AddIn(kind: Kind, nameField: string, name: string, payload: seq<Member>, share: Uuid,
                 id: Uuid, entry: Uuid, now: nat)
      returns (r: Result<Uuid, VaultError>)
      requires Valid() && UniqueNames(payload)
      modifies this, dir
      ensures Valid()
      ensures r.Ok? <==> && Acceptable(kind, JObject(payload)) && share in old(ring)
                         && forall k :: !Matches(old(state), kind, nameField, name, k)
      ensures r.Err? && r.error.PayloadRejected? <==> !Acceptable(kind, JObject(payload))
      ensures r == Err(NotAMember) <==> Acceptable(kind, JObject(payload)) && share !in old(ring)
      ensures r == Err(Duplicate) <==> && Acceptable(kind, JObject(payload)) && share in old(ring)
                                       && exists k :: Matches(old(state), kind, nameField, name, k)
      ensures r.Ok? ==> r.value == id && CanDraft(old(Now()).me, AddIntent(id, kind, ValuesOf(payload), share))
      ensures r.Ok? ==>
        var drafted := Drafted(old(Now()), AddIntent(id, kind, ValuesOf(payload), share), now);
        CanAppend(drafted.me) && Now() == Appended(drafted, entry)
      ensures r.Err? ==> Now() == old(Now())
    {
      var checked := ValidatePayload(kind, JObject(payload));
      if checked.Err? {
        return Err(PayloadRejected(checked.error));
      }
      var held := HasShare(share);
      if !held {
        return Err(NotAMember);
      }
      var taken := Find(kind, nameField, name);
      if taken.Some? {
        return Err(Duplicate);
      }
      var clock := NextClock();
      var rec := Record(id, kind, FieldsFromPayload(ValuesOf(payload), clock), None, clock, meta.deviceId, now, share);
      var appended := Append(rec, entry);
      return Ok(id);
    }

    /** Stamps the fields of an edit: a field whose value did not change keeps its clock. */
    method StampEdited(before: Fields, values: map<string, Json>, clock: Clock) returns (fields: Fields)
      ensures fields == EditedFields(before, values, clock)
    {
      ghost var stamped := EditedFields(before, values, clock);
      fields := FieldsFromPayload(values, clock);
      var todo := fields.Keys;
      while todo != {}
        invariant todo <= stamped.Keys == fields.Keys
        invariant forall n | n in todo :: fields[n] == Field(values[n], clock)
        invariant forall n | n in fields && n !in todo :: fields[n] == stamped[n]
        decreases todo
      {
        var n :| n in todo;
        if n in before && before[n].value == fields[n].value {
          fields := fields[n := Field(fields[n].value, before[n].clock)];
        }
        todo := todo - {n};
      }
      assert fields == stamped;
    }

    /** Updates the record the name finds; returns its id. */
    method Edit(kind: Kind, nameField: string, name: string, payload: seq<Member>, entry: Uuid, now: nat)
      returns (r: Result<Uuid, VaultError>)
      requires Valid() && UniqueNames(payload)
      modifies this, dir
      ensures Valid()
      ensures r.Ok? ==> && Acceptable(kind, JObject(payload))
                        && Matches(old(state), kind, nameField, name, r.value)
      ensures r.Ok? ==>
        var drafted := Drafted(old(Now()), EditIntent(r.value, ValuesOf(payload)), now);
        CanAppend(drafted.me) && Now() == Appended(drafted, entry)
      ensures r.Err? ==> Now() == if r.error.ShareNotHeld? then ClockIssued(old(Now())) else old(Now())
      ensures r.Err? && r.error.PayloadRejected? <==> !Acceptable(kind, JObject(payload))
      ensures r == Err(NoSuchRecord) <==> && Acceptable(kind, JObject(payload))
                                          && forall k :: !Matches(old(state), kind, nameField, name, k)
      ensures r == Err(ShareNotHeld) ==> && Acceptable(kind, JObject(payload))
                                         && exists k :: Matches(old(state), kind, nameField, name, k) &&
                                                        old(state)[k].shareId !in ring
      ensures r.Ok? || r.error.PayloadRejected? || r == Err(NoSuchRecord) || r == Err(ShareNotHeld)
    {
      var checked := ValidatePayload(kind, JObject(payload));
      if checked.Err? {
        return Err(PayloadRejected(checked.error));
      }
      var found := Find(kind, nameField, name);
      if found.None? {
        return Err(NoSuchRecord);
      }
      var before := state[found.value];
      var clock := NextClock();
      var fields := StampEdited(before.fields, ValuesOf(payload), clock);
      var rec := Record(before.id, kind, fields, before.deletedAt, clock, meta.deviceId, now, before.shareId);
      var appended := Append(rec, entry);
      if appended.Err? {
        return Err(ShareNotHeld);
      }
      return Ok(found.value);
    }

    /** Deletes the record the name finds by appending a tombstone; returns its id. */
    method Remove(kind: Kind, nameField: string, name: string, entry: Uuid, now: nat)
      returns (r: Result<Uuid, VaultError>)
      requires Valid()
      modifies this, dir
      ensures Valid()
      ensures r.Ok? ==> Matches(old(state), kind, nameField, name, r.value)
      ensures r.Ok? ==>
        var drafted := Drafted(old(Now()), RemoveIntent(r.value), now);
        CanAppend(drafted.me) && Now() == Appended(drafted, entry)
      ensures r.Err? ==> Now() == if r.error.ShareNotHeld? then ClockIssued(old(Now())) else old(Now())
      ensures r == Err(NoSuchRecord) <==> forall k :: !Matches(old(state), kind, nameField, name, k)
      ensures r == Err(ShareNotHeld) ==> exists k :: Matches(old(state), kind, nameField, name, k) &&
                                                    old(state)[k].shareId !in ring
      ensures r.Ok? || r == Err(NoSuchRecord) || r == Err(ShareNotHeld)
    {
      var found := Find(kind, nameField, name);
      if found.None? {
        return Err(NoSuchRecord);
      }
      var before := state[found.value];
      var clock := NextClock();
      var tomb := Record(before.id, Tombstone, map[], Some(clock), clock, meta.deviceId, now, before.shareId);
      var appended := Append(tomb, entry);
      if appended.Err? {
        return Err(ShareNotHeld);
      }
      return Ok(found.value);
    }

    // ---- sync surface ----------------------------------------------------------

    /** Keeps a pulled frame; when it opens, merges it and raises the counter to its clock. */
    method ApplyRemoteEntry(f: Frame)
      requires Valid()
      modifies this, dir
      ensures Valid() && Now() == Applied(old(Now()), f)
    {
      var found := TryOpen(shares, f, ring);
      AbsorbDiskMeta();
      dir.log := dir.log + [f];
      if found.Some? {
        MergeIntoState(found.value);
        if found.value.clock.lamport > meta.lamport {
          meta := meta.(lamport := found.value.clock.lamport);
        }
      }
      dir.meta := meta;
    }

    /** The cursor only ever advances here. */
    method SetSyncCursor(cursor: nat)
      requires Valid()
      modifies this`meta, dir`meta
      ensures Valid() && Now() == CursorSet(old(Now()), cursor)
    {
      AbsorbDiskMeta();
      meta := meta.(cursor := MaxNat(meta.cursor, cursor));
      dir.meta := meta;
    }

    /** Rewinds the cursor, so that entries filtered out before a grant are pulled again. */
    method ResetSyncCursor()
      requires Valid()
      modifies this`meta, dir`meta
      ensures Valid() && Now() == CursorReset(old(Now()))
    {
      AbsorbDiskMeta();
      meta := meta.(cursor := 0);
      dir.meta := meta;
    }

    /** All frames with the share each is to be routed by. */
    method RawEntriesTagged() returns (out: seq<TaggedFrame>)
      requires Valid()
      ensures out == TaggedLog(ring, dir.log)
    {
      var frames := dir.log;
      out := [];
      for i := 0 to |frames|
        invariant out == TaggedLog(ring, frames[..i])
      {
        var found := TryOpen(shares, frames[i], ring);
        var share := if found.Some? then found.value.shareId else NIL;
        out := out + [TaggedFrame(frames[i], share)];
        assert frames[..i + 1] == frames[..i] + [frames[i]];
      }
      assert frames[..|frames|] == frames;
    }

    // ---- replay ----------------------------------------------------------------

    /** The snapshot's frames and records when it is usable, else nothing. */
    method SnapshotSeed() returns (seed: State, start: nat)
      requires Valid()
      ensures Keyed(seed)
      ensures (seed, start) == if SnapshotUsable(ring, dir.log, Now().disk.snapshot)
                               then (dir.snapshot.value.records, dir.snapshot.value.covered) else (map[], 0)
    {
      if dir.snapshot.Some? && dir.snapshot.value.covered <= |dir.log| {
        var held := HeldShareEpochs(shares, ring);
        var same := SameEpochSet(dir.snapshot.value.shares, held, dir.pinned, Fingerprint(ring));
        if same {
          return dir.snapshot.value.records, dir.snapshot.value.covered;
        }
      }
      return map[], 0;
    }

    /** Opens frames one by one and folds them into `seed`. */
    method FoldFrames(seed: State, frames: seq<Frame>)
      requires Valid() && Keyed(seed)
      modifies this`state
      ensures Keyed(state) && state == FoldInto(seed, OpenedFrames(ring, frames))
    {
      state := seed;
      for i := 0 to |frames|
        invariant Keyed(state)
        invariant state == FoldInto(seed, OpenedFrames(ring, frames[..i]))
      {
        var found := TryOpen(shares, frames[i], ring);
        assert frames[..i + 1][..i] == frames[..i];
        if found.Some? {
          ghost var recs := OpenedFrames(ring, frames[..i]);
          assert (recs + [found.value])[..|recs|] == recs;
          MergeIntoState(found.value);
        }
      }
      assert frames[..|frames|] == frames;
    }

    /** Folds the whole log into the state, from the snapshot when it is usable, compacting a long tail. */
    method ReplayLog()
      requires Valid()
      modifies this`state, dir`snapshot, dir`pinned
      ensures Valid() && Now() == Replayed(old(Now()))
    {
      var seed, start := SnapshotSeed();
      FoldFrames(seed, dir.log[start..]);
      assert dir.log[0..] == dir.log;
      if |dir.log| - start > COMPACT_THRESHOLD && |dir.log| > |state| {
        var written := Compact();
      }
    }

    /** Every readable record of the log, in log order. */
    method OpenAll() returns (records: seq<Record>)
      requires Valid()
      ensures records == OpenedFrames(ring, dir.log)
    {
      records := [];
      for i := 0 to |dir.log|
        invariant records == OpenedFrames(ring, dir.log[..i])
      {
        var found := TryOpen(shares, dir.log[i], ring);
        assert dir.log[..i + 1][..i] == dir.log[..i];
        if found.Some? {
          records := records + [found.value];
        }
      }
      assert dir.log[..|dir.log|] == dir.log;
    }

    /** Rebuilds the snapshot from the whole log; it is written only when it is smaller than the log. */
    method Compact() returns (written: bool)
      requires Valid()
      modifies this`state, dir`snapshot, dir`pinned
      ensures Valid() && Now() == Compacted(old(Now()))
      ensures written <==> |dir.log| > |state|
    {
      var records := OpenAll();
      var folded := MergeAll(records);
      FoldIsKeyed(records);
      state := folded;
      if |dir.log| <= |folded| {
        return false;
      }
      var held := HeldShareEpochs(shares, ring);
      dir.snapshot := Some(SnapshotFile(|dir.log|, held, folded));
      dir.pinned := Fingerprint(ring);
      return true;
    }
  }

  lemma FoldIsKeyed(rs: seq<Record>)
    ensures Keyed(FoldInto(map[], rs))
  {
    FoldIsJoin(rs);
  }
}
