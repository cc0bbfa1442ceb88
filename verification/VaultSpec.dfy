/**
 What each vault operation does, on values: the files of one vault directory, one open handle
 on it, and the change an operation makes to both. A section under the directory lock is one
 function; a local write takes two (issue a clock, then append the sealed record).
 */
module VaultSpec {
  import opened Wrappers
  import opened Records
  import opened Merging
  import opened Keyrings

  /** The counters of meta.json; the remaining fields never change after creation. */
  datatype Meta = Meta(deviceId: Uuid, lamport: nat, cursor: nat)

  datatype Snapshot = Snapshot(covered: nat, shares: map<Uuid, nat>, records: State)

  datatype Disk = Disk(meta: Meta, ring: Ring, log: seq<Frame>, snapshot: Option<Snapshot>)

  /** An open vault. `pending` is a record whose clock is issued and which is not yet appended. */
  datatype Handle = Handle(meta: Meta, ring: Ring, state: State, pending: Option<Record>)

  datatype View = View(disk: Disk, me: Handle)

  // ---- counters -------------------------------------------------------------

  /** Folds the on-disk counters into the handle's copy, so that a stale copy rolls nothing back. */
  function AbsorbedMeta(v: View): Meta {
    Meta(v.me.meta.deviceId,
         MaxNat(v.me.meta.lamport, v.disk.meta.lamport),
         MaxNat(v.me.meta.cursor, v.disk.meta.cursor))
  }

  function WithMeta(v: View, m: Meta): View {
    v.(disk := v.disk.(meta := m), me := v.me.(meta := m))
  }

  /** The clock the next local write gets. */
  function NextClock(v: View): Clock {
    Clock(AbsorbedMeta(v).lamport + 1, v.me.meta.deviceId)
  }

  function ClockIssued(v: View): View {
    WithMeta(v, AbsorbedMeta(v).(lamport := NextClock(v).lamport))
  }

  function CursorSet(v: View, cursor: nat): View {
    var m := AbsorbedMeta(v);
    WithMeta(v, m.(cursor := MaxNat(m.cursor, cursor)))
  }

  function CursorReset(v: View): View {
    WithMeta(v, AbsorbedMeta(v).(cursor := 0))
  }

  // ---- local writes ---------------------------------------------------------

  datatype Intent =
    | AddIntent(id: Uuid, kind: Kind, values: map<string, Json>, share: Uuid)
    | EditIntent(id: Uuid, values: map<string, Json>)
    | RemoveIntent(id: Uuid)

  /** The record `find` would return: live, of the kind, with the name in its name field. */
  predicate Matches(state: State, kind: Kind, nameField: string, name: string, id: Uuid) {
    && id in state
    && Live(state[id])
    && state[id].kind == kind
    && nameField in state[id].fields
    && state[id].fields[nameField].value == JString(name)
  }

  predicate CanDraft(me: Handle, i: Intent) {
    match i
    case AddIntent(_, _, _, share) => share in me.ring
    case EditIntent(id, _) => id in me.state && Live(me.state[id])
    case RemoveIntent(id) => id in me.state && Live(me.state[id])
  }

  /** Only fields whose value changed get the new clock. */
  function EditedFields(before: Fields, values: map<string, Json>, clock: Clock): Fields {
    map n | n in values ::
      if n in before && before[n].value == values[n] then Field(values[n], before[n].clock) else Field(values[n], clock)
  }

  function Draft(me: Handle, i: Intent, clock: Clock, now: nat): Record
    requires CanDraft(me, i)
  {
    match i
    case AddIntent(id, kind, values, share) =>
      Record(id, kind, FieldsFromPayload(values, clock), None, clock, me.meta.deviceId, now, share)
    case EditIntent(id, values) =>
      var before := me.state[id];
      Record(before.id, before.kind, EditedFields(before.fields, values, clock), before.deletedAt, clock,
             me.meta.deviceId, now, before.shareId)
    case RemoveIntent(id) =>
      Record(me.state[id].id, Tombstone, map[], Some(clock), clock, me.meta.deviceId, now, me.state[id].shareId)
  }

  function Drafted(v: View, i: Intent, now: nat): View
    requires CanDraft(v.me, i)
  {
    var w := ClockIssued(v);
    w.(me := w.me.(pending := Some(Draft(v.me, i, NextClock(v), now))))
  }

  predicate CanAppend(me: Handle) {
    me.pending.Some? && ListOf(me.ring, me.pending.value.shareId) != []
  }

  /** The current key of a share the handle holds. */
  function CurrentKey(ring: Ring, share: Uuid): Key
    requires ListOf(ring, share) != []
  {
    ring[share][|ring[share]| - 1]
  }

  function SealedFrame(me: Handle, entry: Uuid): Frame
    requires CanAppend(me)
  {
    var rec := me.pending.value;
    Frame(entry, Sealed(CurrentKey(me.ring, rec.shareId), entry, rec))
  }

  /** A handle can open what it seals. */
  lemma OwnFrameOpens(me: Handle, entry: Uuid)
    requires CanAppend(me)
    ensures Opens(me.ring, SealedFrame(me, entry))
  {
    assert CurrentKey(me.ring, me.pending.value.shareId) in me.ring[me.pending.value.shareId];
  }

  function Appended(v: View, entry: Uuid): View
    requires CanAppend(v.me)
  {
    var rec := v.me.pending.value;
    View(v.disk.(log := v.disk.log + [SealedFrame(v.me, entry)]),
         v.me.(state := MergeInto(v.me.state, rec), pending := None))
  }

  // ---- pulled entries -------------------------------------------------------

  /** A pulled frame is kept even when no held key opens it; an opened one is merged and raises the clock. */
  function Applied(v: View, f: Frame): View {
    var m := AbsorbedMeta(v);
    var kept := v.(disk := v.disk.(log := v.disk.log + [f]));
    match OpenEntry(v.me.ring, f)
    case None => WithMeta(kept, m)
    case Some(rec) =>
      WithMeta(kept.(me := kept.me.(state := MergeInto(v.me.state, rec))),
               m.(lamport := MaxNat(m.lamport, rec.clock.lamport)))
  }

  /** The state holds the record, or what it was merged into. */
  predicate ShowsRecord(state: State, rec: Record) {
    rec.id in state && Covers(state[rec.id], rec)
  }

  /** Whatever shows in `state` shows in `later`. */
  ghost predicate ShowsMore(state: State, later: State) {
    forall rec | ShowsRecord(state, rec) :: ShowsRecord(later, rec)
  }

  /** Merging a record shows it, and hides nothing that was shown. */
  lemma MergeShows(state: State, rec: Record)
    requires Keyed(state)
    ensures ShowsRecord(MergeInto(state, rec), rec)
    ensures ShowsMore(state, MergeInto(state, rec))
  {
    if rec.id in state {
      JoinCovers(state[rec.id], rec);
      forall other | ShowsRecord(state, other) && other.id == rec.id
        ensures Covers(MergeInto(state, rec)[rec.id], other)
      {
        CoversTransitive(Join(state[rec.id], rec), state[rec.id], other);
      }
    }
  }

  /** A pulled frame that opens shows in memory at once, and nothing shown before is hidden. */
  lemma AppliedIsShown(v: View, f: Frame)
    requires Keyed(v.me.state)
    ensures Opens(v.me.ring, f) ==> ShowsRecord(Applied(v, f).me.state, f.blob.rec)
    ensures ShowsMore(v.me.state, Applied(v, f).me.state)
    ensures Keyed(Applied(v, f).me.state)
  {
    if Opens(v.me.ring, f) {
      MergeShows(v.me.state, f.blob.rec);
    }
  }

  // ---- keys -----------------------------------------------------------------

  /** Writing the keyring stores the handle's whole keyring. */
  function WithRing(v: View, ring: Ring): View {
    v.(disk := v.disk.(ring := ring), me := v.me.(ring := ring))
  }

  function Absorbed(v: View, share: Uuid, keys: seq<Key>): View {
    var ring := Absorb(v.me.ring, share, keys);
    if ring == v.me.ring then v else WithRing(v, ring)
  }

  function KeyPushed(v: View, share: Uuid, key: Key): View {
    WithRing(v, v.me.ring[share := ListOf(v.me.ring, share) + [key]])
  }

  /** The real list replaces the throwaway key of a joining device, while the log is empty. */
  function KeysInstalled(v: View, keys: seq<Key>): View {
    var w := WithRing(v, v.me.ring[NIL := keys]);
    w.(me := w.me.(state := map[]))
  }

  // ---- replay ---------------------------------------------------------------

  function OpenedFrames(ring: Ring, frames: seq<Frame>): seq<Record> {
    if frames == [] then []
    else
      var front := OpenedFrames(ring, frames[..|frames| - 1]);
      match OpenEntry(ring, frames[|frames| - 1])
      case None => front
      case Some(rec) => front + [rec]
  }

  /** Folding every openable frame of the log. */
  function Replay(ring: Ring, frames: seq<Frame>): State {
    FoldInto(map[], OpenedFrames(ring, frames))
  }

  predicate SnapshotUsable(ring: Ring, frames: seq<Frame>, snapshot: Option<Snapshot>) {
    snapshot.Some? && snapshot.value.covered <= |frames| && snapshot.value.shares == Fingerprint(ring)
  }

  /** The fold an open does: from a usable snapshot only the frames past it are replayed. */
  function FoldFromSnapshot(ring: Ring, frames: seq<Frame>, snapshot: Option<Snapshot>): State {
    if SnapshotUsable(ring, frames, snapshot) then
      FoldInto(snapshot.value.records, OpenedFrames(ring, frames[snapshot.value.covered..]))
    else
      Replay(ring, frames)
  }

  function Reloaded(v: View): View {
    v.(me := v.me.(meta := v.disk.meta, state := FoldFromSnapshot(v.me.ring, v.disk.log, v.disk.snapshot)))
  }

  function Opened(disk: Disk): Handle {
    Handle(disk.meta, disk.ring, FoldFromSnapshot(disk.ring, disk.log, disk.snapshot), None)
  }

  function Compacted(v: View): View {
    var state := Replay(v.me.ring, v.disk.log);
    var me := v.me.(state := state);
    if |v.disk.log| <= |state| then
      v.(me := me)
    else
      View(v.disk.(snapshot := Some(Snapshot(|v.disk.log|, Fingerprint(v.me.ring), state))), me)
  }

  /** A log past this many frames that no snapshot covers gets one on the next replay. */
  const COMPACT_THRESHOLD := 10_000

  function CoveredBySnapshot(v: View): nat {
    if SnapshotUsable(v.me.ring, v.disk.log, v.disk.snapshot) then v.disk.snapshot.value.covered else 0
  }

  /** A replay, and the compaction it triggers when the uncovered tail is long and would shrink. */
  function Replayed(v: View): View {
    var w := v.(me := v.me.(state := FoldFromSnapshot(v.me.ring, v.disk.log, v.disk.snapshot)));
    if |v.disk.log| - CoveredBySnapshot(v) > COMPACT_THRESHOLD && |v.disk.log| > |w.me.state|
    then Compacted(w) else w
  }

  /** The view an open starts from: nothing is in memory yet. */
  function Unlocked(disk: Disk): View {
    View(disk, Handle(disk.meta, disk.ring, map[], None))
  }

  /** The view a reload starts from: the counters are taken from disk, the keyring is kept. */
  function Refreshed(v: View): View {
    v.(me := v.me.(meta := v.disk.meta))
  }

  // ---- routing --------------------------------------------------------------

  datatype TaggedFrame = TaggedFrame(frame: Frame, share: Uuid)

  /** The share a push reports: the one inside the record, or the default for an unreadable frame. */
  function TagOf(ring: Ring, f: Frame): Uuid {
    match OpenEntry(ring, f)
    case None => NIL
    case Some(rec) => rec.shareId
  }

  function TaggedLog(ring: Ring, frames: seq<Frame>): seq<TaggedFrame> {
    seq(|frames|, i requires 0 <= i < |frames| => TaggedFrame(frames[i], TagOf(ring, frames[i])))
  }

  // ---- facts about replay ---------------------------------------------------

  lemma {:induction false} OpenedFramesSplit(ring: Ring, a: seq<Frame>, b: seq<Frame>)
    ensures OpenedFrames(ring, a + b) == OpenedFrames(ring, a) + OpenedFrames(ring, b)
  {
    if b == [] {
      assert a + b == a;
    } else {
      OpenedFramesSplit(ring, a, b[..|b| - 1]);
      assert (a + b)[..|a + b| - 1] == a + b[..|b| - 1];
    }
  }

  lemma {:induction false} FoldIntoSplit(state: State, a: seq<Record>, b: seq<Record>)
    ensures FoldInto(state, a + b) == FoldInto(FoldInto(state, a), b)
  {
    if b == [] {
      assert a + b == a;
    } else {
      FoldIntoSplit(state, a, b[..|b| - 1]);
      assert (a + b)[..|a + b| - 1] == a + b[..|b| - 1];
    }
  }

  /** Folding the tail onto the fold of a leading part is folding the whole log. */
  lemma ReplayFromPrefix(ring: Ring, frames: seq<Frame>, covered: nat)
    requires covered <= |frames|
    ensures FoldInto(Replay(ring, frames[..covered]), OpenedFrames(ring, frames[covered..])) == Replay(ring, frames)
  {
    OpenedFramesSplit(ring, frames[..covered], frames[covered..]);
    assert frames == frames[..covered] + frames[covered..];
    FoldIntoSplit(map[], OpenedFrames(ring, frames[..covered]), OpenedFrames(ring, frames[covered..]));
  }

  /** The records the ring opens in the log. */
  ghost function Readable(ring: Ring, frames: seq<Frame>): set<Record> {
    set f | f in frames && Opens(ring, f) :: f.blob.rec
  }

  lemma {:induction false} OpenedAreReadable(ring: Ring, frames: seq<Frame>)
    ensures SetOf(OpenedFrames(ring, frames)) == Readable(ring, frames)
  {
    if frames != [] {
      var front, last := frames[..|frames| - 1], frames[|frames| - 1];
      OpenedAreReadable(ring, front);
      assert frames == front + [last];
      assert Readable(ring, frames) == Readable(ring, front) + (if Opens(ring, last) then {last.blob.rec} else {});
      if Opens(ring, last) {
        var rs := OpenedFrames(ring, frames);
        assert rs[..|rs| - 1] == OpenedFrames(ring, front);
        SetOfSnoc(rs);
      }
    }
  }

  /** Replaying yields the join of the readable records. */
  lemma ReplayIsJoin(ring: Ring, frames: seq<Frame>)
    ensures StateOf(Replay(ring, frames), Readable(ring, frames))
  {
    OpenedAreReadable(ring, frames);
    FoldIsJoin(OpenedFrames(ring, frames));
  }

  /** What is readable in the log shows in its replay. */
  lemma ReplayShows(ring: Ring, frames: seq<Frame>, f: Frame)
    requires f in frames && Opens(ring, f)
    ensures ShowsRecord(Replay(ring, frames), f.blob.rec)
  {
    ReplayIsJoin(ring, frames);
    assert f.blob.rec in Readable(ring, frames);
    assert f.blob.rec in WithId(Readable(ring, frames), f.blob.rec.id);
  }

  /**
   A compaction that writes a snapshot leaves one that an open under the same keyring starts from, with
   no frame left to replay; after any replay the part to replay next time is short, unless a snapshot
   would not be smaller than the log.
   */
  lemma CompactionIsUsed(v: View)
    ensures |v.disk.log| > |Replay(v.me.ring, v.disk.log)| ==> CoveredBySnapshot(Compacted(v)) == |v.disk.log|
    ensures var w := Replayed(v);
            |w.disk.log| - CoveredBySnapshot(w) <= 10_000 || |w.disk.log| <= |w.me.state|
  {
  }

  /** A replayed state depends only on which records are readable, not on order, repeats or other keys. */
  lemma ReplayDependsOnReadable(r1: Ring, log1: seq<Frame>, r2: Ring, log2: seq<Frame>)
    requires Readable(r1, log1) == Readable(r2, log2) && CoherentSet(Readable(r1, log1))
    ensures Replay(r1, log1) == Replay(r2, log2)
  {
    OpenedAreReadable(r1, log1);
    OpenedAreReadable(r2, log2);
    MergeAllDependsOnSetOnly(OpenedFrames(r1, log1), OpenedFrames(r2, log2));
  }

  // ---- reading one's own writes ----------------------------------------------

  /** Every clock of the record is below the clock. */
  predicate RecordBefore(r: Record, c: Clock) {
    && r.clock.Before(c)
    && (forall n | n in r.fields :: r.fields[n].clock.Before(c))
    && (r.deletedAt.Some? ==> r.deletedAt.value.Before(c))
  }

  /**
   After an edit whose clock is above everything the handle has seen of the record, the merged
   record holds the payload's values; fields the payload omits, and the clocks of unchanged
   fields, are kept, and the record is still live.
   */
  lemma EditReadsBack(v: View, id: Uuid, values: map<string, Json>, now: nat, entry: Uuid)
    requires Keyed(v.me.state) && CanDraft(v.me, EditIntent(id, values))
    requires RecordBefore(v.me.state[id], NextClock(v))
    requires CanAppend(Drafted(v, EditIntent(id, values), now).me)
    ensures var before, after := v.me.state[id], Appended(Drafted(v, EditIntent(id, values), now), entry).me.state[id];
            && after.fields.Keys == before.fields.Keys + values.Keys
            && (forall n | n in values :: after.fields[n].value == values[n])
            && (forall n | n in values && n in before.fields && before.fields[n].value == values[n] ::
                  after.fields[n] == before.fields[n])
            && (forall n | n in values && !(n in before.fields && before.fields[n].value == values[n]) ::
                  after.fields[n].clock == NextClock(v))
            && (forall n | n in before.fields && n !in values :: after.fields[n] == before.fields[n])
            && Live(after) && after.kind == before.kind && after.id == id && after.shareId == before.shareId
            && after.clock == NextClock(v) && after.deviceId == v.me.meta.deviceId
            && after.modifiedAt == MaxNat(before.modifiedAt, now)
    ensures var state := Appended(Drafted(v, EditIntent(id, values), now), entry).me.state;
            state.Keys == v.me.state.Keys && forall k | k in v.me.state && k != id :: state[k] == v.me.state[k]
  {
    var before := v.me.state[id];
    var rec := Draft(v.me, EditIntent(id, values), NextClock(v), now);
    var after := Join(before, rec);
    assert Appended(Drafted(v, EditIntent(id, values), now), entry).me.state[id] == after;
    if before.deletedAt.Some? {
      var n :| n in before.fields && !before.fields[n].clock.Before(before.deletedAt.value);
      assert !after.fields[n].clock.Before(after.deletedAt.value);
    }
  }

  /**
   After an add the new record is live, of the kind and in the share, and holds exactly the payload's
   values, all at the issued clock; so it is found under the name its payload holds, and under no other.
   */
  lemma AddReadsBack(v: View, id: Uuid, kind: Kind, values: map<string, Json>, share: Uuid, now: nat, entry: Uuid)
    requires CanDraft(v.me, AddIntent(id, kind, values, share)) && id !in v.me.state
    requires CanAppend(Drafted(v, AddIntent(id, kind, values, share), now).me)
    ensures var state := Appended(Drafted(v, AddIntent(id, kind, values, share), now), entry).me.state;
            && id in state && (forall k | k != id :: k in state <==> k in v.me.state)
            && (forall k | k in v.me.state :: state[k] == v.me.state[k])
            && var rec := state[id];
               && (Live(rec) <==> !kind.Tombstone?) && rec.id == id && rec.kind == kind && rec.shareId == share
               && rec.clock == NextClock(v) && rec.deviceId == v.me.meta.deviceId && rec.modifiedAt == now
               && rec.fields.Keys == values.Keys
               && (forall n | n in values :: rec.fields[n].value == values[n] && rec.fields[n].clock == NextClock(v))
    ensures var state := Appended(Drafted(v, AddIntent(id, kind, values, share), now), entry).me.state;
            forall k, nameField, name ::
              Matches(state, k, nameField, name, id) <==>
                && k == kind && !kind.Tombstone?
                && nameField in values && values[nameField] == JString(name)
  {
    var rec := Draft(v.me, AddIntent(id, kind, values, share), NextClock(v), now);
    var after := Appended(Drafted(v, AddIntent(id, kind, values, share), now), entry).me.state;
    assert after == v.me.state[id := rec];
    assert forall n | n in values :: rec.fields[n].value == values[n];
  }

  /** After a removal whose clock is above everything the handle has seen of it, the record is not live. */
  lemma RemoveReadsBack(v: View, id: Uuid, now: nat, entry: Uuid)
    requires Keyed(v.me.state) && CanDraft(v.me, RemoveIntent(id))
    requires RecordBefore(v.me.state[id], NextClock(v))
    requires CanAppend(Drafted(v, RemoveIntent(id), now).me)
    ensures var after := Appended(Drafted(v, RemoveIntent(id), now), entry).me.state[id];
            && !Live(after) && after.deletedAt == Some(NextClock(v))
            && after.fields == v.me.state[id].fields && after.kind == v.me.state[id].kind
            && after.id == id && after.shareId == v.me.state[id].shareId && after.clock == NextClock(v)
    ensures var state := Appended(Drafted(v, RemoveIntent(id), now), entry).me.state;
            && state.Keys == v.me.state.Keys && (forall k | k in v.me.state && k != id :: state[k] == v.me.state[k])
            && forall kind, nameField, name :: !Matches(state, kind, nameField, name, id)
  {
    var before := v.me.state[id];
    var rec := Draft(v.me, RemoveIntent(id), NextClock(v), now);
    assert Join(before, rec).fields == before.fields;
    assert Appended(Drafted(v, RemoveIntent(id), now), entry).me.state[id] == Join(before, rec);
  }

  /** Absorbing is the join of the two copies of the counters: it rolls neither back, and adds nothing else. */
  lemma AbsorbedMetaIsLeast(v: View, m: Meta)
    ensures var a := AbsorbedMeta(v);
            (v.me.meta.lamport <= m.lamport && v.disk.meta.lamport <= m.lamport <==> a.lamport <= m.lamport)
            && (v.me.meta.cursor <= m.cursor && v.disk.meta.cursor <= m.cursor <==> a.cursor <= m.cursor)
            && AbsorbedMeta(WithMeta(v, a)) == a
  {
  }

  /**
   A pulled entry leaves the least counter not below either copy nor, when it opens, below its clock;
   a cursor is set to the least one not below either copy nor the one given; a reset alone sets it back.
   */
  lemma CountersAreLeast(v: View, f: Frame, cursor: nat, n: nat)
    ensures var lamport := Applied(v, f).disk.meta.lamport;
            lamport <= n <==> && v.me.meta.lamport <= n && v.disk.meta.lamport <= n
                              && (Opens(v.me.ring, f) ==> f.blob.rec.clock.lamport <= n)
    ensures CursorSet(v, cursor).disk.meta.cursor <= n <==>
              v.me.meta.cursor <= n && v.disk.meta.cursor <= n && cursor <= n
    ensures Applied(v, f).disk.meta.cursor == AbsorbedMeta(v).cursor && CursorReset(v).disk.meta.cursor == 0
    ensures CursorSet(v, cursor).disk.meta.lamport == CursorReset(v).disk.meta.lamport == AbsorbedMeta(v).lamport
    ensures Applied(v, f).me.meta == Applied(v, f).disk.meta
    ensures CursorSet(v, cursor).me.meta == CursorSet(v, cursor).disk.meta
  {
  }

  /**
   Without H6: a handle writes its own keyring over the one on disk, so after a rotation through a
   stale handle a frame keeps opening exactly when that handle held its key or it is under the new one.
   */
  lemma StaleKeyringLosesFrames(v: View, share: Uuid, key: Key, f: Frame)
    requires Opens(v.disk.ring, f)
    ensures Opens(KeyPushed(v, share, key).disk.ring, f) <==> f.blob.key == key || HoldsKey(v.me.ring, f.blob.key)
  {
    var before, after := v.me.ring, KeyPushed(v, share, key).disk.ring;
    assert share in after && after[share] == ListOf(before, share) + [key];
    if HoldsKey(before, f.blob.key) {
      var s :| s in before && f.blob.key in before[s];
      assert s in after && f.blob.key in after[s];
    }
    if f.blob.key == key {
      assert after[share][|after[share]| - 1] == key;
    }
  }
}
