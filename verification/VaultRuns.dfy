/**
 Runs of one vault directory under any number of handles, stale ones included. Each step is one
 locked section of one handle, or an open, a close (also a crash) or a reload.

 Clocks need no hypothesis. The snapshot needs H6: a handle that writes the keyring holds the
 keyring that is on disk, and the installation of a joining device's real keys happens while no
 other handle is open (`KeysInOrder`).
 */
module VaultRuns {
  import opened Wrappers
  import opened Records
  import opened Keyrings
  import opened VaultSpec

  /** `rings` records every keyring that was on disk; it is history, not state of the program. */
  datatype Dir = Dir(disk: Disk, handles: map<nat, Handle>, rings: set<Ring>)

  datatype LocalOp =
    | Open
    | Close
    | Issue(intent: Intent, now: nat)
    | Append(entry: Uuid)
    | Apply(frame: Frame)
    | SetCursor(cursor: nat)
    | ResetCursor
    | Grow(share: Uuid, keys: seq<Key>)
    | Install(keys: seq<Key>)
    | Reload
    | Compact

  predicate LocalEnabled(dir: Dir, h: nat, op: LocalOp) {
    if op.Open? then h !in dir.handles
    else if h !in dir.handles then false
    else
      var me := dir.handles[h];
      match op
      case Close => true
      case Append(_) => CanAppend(me)
      case _ =>
        me.pending.None? &&
        match op
        case Issue(i, _) => CanDraft(me, i)
        case Grow(share, keys) => |keys| > |ListOf(me.ring, share)|
        case Install(keys) => keys != [] && dir.disk.log == []
        case _ => true
  }

  /** H6 for one step. */
  predicate KeysInOrder(dir: Dir, h: nat, op: LocalOp) {
    && (op.Grow? || op.Install? ==> h in dir.handles && dir.handles[h].ring == dir.disk.ring)
    && (op.Install? ==> dir.handles.Keys == {h})
  }

  function ViewOf(dir: Dir, h: nat): View
    requires h in dir.handles
  {
    View(dir.disk, dir.handles[h])
  }

  function PutView(dir: Dir, h: nat, v: View): Dir {
    dir.(disk := v.disk, handles := dir.handles[h := v.me])
  }

  function LocalNext(dir: Dir, h: nat, op: LocalOp): Dir
    requires LocalEnabled(dir, h, op)
  {
    match op
    case Open => dir.(handles := dir.handles[h := Opened(dir.disk)])
    case Close => dir.(handles := dir.handles - {h})
    case Issue(i, now) => PutView(dir, h, Drafted(ViewOf(dir, h), i, now))
    case Append(entry) => PutView(dir, h, Appended(ViewOf(dir, h), entry))
    case Apply(frame) => PutView(dir, h, Applied(ViewOf(dir, h), frame))
    case SetCursor(c) => PutView(dir, h, CursorSet(ViewOf(dir, h), c))
    case ResetCursor => PutView(dir, h, CursorReset(ViewOf(dir, h)))
    case Grow(share, keys) =>
      var ring := dir.handles[h].ring[share := keys];
      PutView(dir, h, WithRing(ViewOf(dir, h), ring)).(rings := dir.rings + {ring})
    case Install(keys) =>
      PutView(dir, h, KeysInstalled(ViewOf(dir, h), keys)).(rings := {dir.handles[h].ring[NIL := keys]})
    case Reload => PutView(dir, h, Reloaded(ViewOf(dir, h)))
    case Compact => PutView(dir, h, Compacted(ViewOf(dir, h)))
  }

  /** The frame a step seals, if any. */
  function SealedBy(dir: Dir, h: nat, op: LocalOp): set<Frame> {
    if op.Append? && h in dir.handles && CanAppend(dir.handles[h]) then {SealedFrame(dir.handles[h], op.entry)} else {}
  }

  /** The record a step gets a clock for, if any. */
  function DraftedBy(dir: Dir, h: nat, op: LocalOp): set<Record> {
    if op.Issue? && h in dir.handles && CanDraft(dir.handles[h], op.intent)
    then {Draft(dir.handles[h], op.intent, NextClock(ViewOf(dir, h)), op.now)} else {}
  }

  function NewDir(device: Uuid, keys: seq<Key>): Dir {
    var ring := map[NIL := keys];
    Dir(Disk(Meta(device, 0, 0), ring, [], None), map[], {ring})
  }

  // ---- the invariant ---------------------------------------------------------

  predicate CountLe(a: Ring, b: Ring) {
    forall s | s in a :: s in b && |a[s]| <= |b[s]|
  }

  /** A fingerprint names at most one of the keyrings this directory ever had. */
  ghost predicate RingsOk(dir: Dir) {
    && dir.disk.ring in dir.rings
    && (forall h | h in dir.handles :: dir.handles[h].ring in dir.rings)
    && (forall r | r in dir.rings :: CountLe(r, dir.disk.ring))
    && (forall a, b | a in dir.rings && b in dir.rings && Fingerprint(a) == Fingerprint(b) :: a == b)
  }

  /** The snapshot is the replay of the frames it covers, under one of those keyrings. */
  ghost predicate SnapshotOk(dir: Dir) {
    dir.disk.snapshot.Some? ==>
      var s := dir.disk.snapshot.value;
      && 0 < s.covered <= |dir.disk.log|
      && exists r :: r in dir.rings && Fingerprint(r) == s.shares && s.records == Replay(r, dir.disk.log[..s.covered])
  }

  predicate CountersOk(disk: Disk, me: Handle) {
    me.meta.deviceId == disk.meta.deviceId && me.meta.lamport <= disk.meta.lamport
  }

  /** No handle's copy of the counter exceeds the one on disk. */
  ghost predicate CountersInv(dir: Dir) {
    forall h | h in dir.handles :: CountersOk(dir.disk, dir.handles[h])
  }

  ghost predicate LocalInv(dir: Dir) {
    RingsOk(dir) && SnapshotOk(dir) && CountersInv(dir)
  }

  /** Opening through the snapshot and the tail gives exactly the replay of the whole log. */
  lemma SnapshotRefinesReplay(dir: Dir, ring: Ring)
    requires LocalInv(dir) && ring in dir.rings
    ensures FoldFromSnapshot(ring, dir.disk.log, dir.disk.snapshot) == Replay(ring, dir.disk.log)
  {
    if SnapshotUsable(ring, dir.disk.log, dir.disk.snapshot) {
      var s := dir.disk.snapshot.value;
      var r :| r in dir.rings && Fingerprint(r) == s.shares && s.records == Replay(r, dir.disk.log[..s.covered]);
      assert r == ring;
      ReplayFromPrefix(ring, dir.disk.log, s.covered);
    }
  }

  /** A replay ends with the replay of the whole log in memory, whether or not it compacts. */
  lemma ReplayedIsReplay(dir: Dir, me: Handle)
    requires LocalInv(dir) && me.ring in dir.rings
    ensures Replayed(View(dir.disk, me)).me.state == Replay(me.ring, dir.disk.log)
  {
    SnapshotRefinesReplay(dir, me.ring);
  }

  /** What an open does is the step of opening, with a compaction after it when the tail is long. */
  lemma OpenIsSteps(dir: Dir, h: nat)
    requires LocalEnabled(dir, h, Open)
    ensures var first := LocalNext(dir, h, Open);
            || Replayed(Unlocked(dir.disk)) == ViewOf(first, h)
            || Replayed(Unlocked(dir.disk)) == ViewOf(LocalNext(first, h, Compact), h)
  {
  }

  /** What a reload does is the step of reloading, with a compaction after it when the tail is long. */
  lemma ReloadIsSteps(dir: Dir, h: nat)
    requires LocalEnabled(dir, h, Reload)
    ensures var first := LocalNext(dir, h, Reload);
            || Replayed(Refreshed(ViewOf(dir, h))) == ViewOf(first, h)
            || Replayed(Refreshed(ViewOf(dir, h))) == ViewOf(LocalNext(first, h, Compact), h)
  {
  }

  /** The log is append-only and the Lamport counter never falls. */
  predicate Grew(disk: Disk, disk': Disk) {
    && disk.log <= disk'.log
    && disk.meta.lamport <= disk'.meta.lamport
    && disk.meta.deviceId == disk'.meta.deviceId
  }

  /** Every step keeps the earlier log and the counter; issuing a clock raises it by one. */
  lemma LocalStepGrows(dir: Dir, h: nat, op: LocalOp)
    requires CountersInv(dir) && LocalEnabled(dir, h, op)
    ensures Grew(dir.disk, LocalNext(dir, h, op).disk)
    ensures op.Issue? ==>
      LocalNext(dir, h, op).disk.meta.lamport == NextClock(ViewOf(dir, h)).lamport == dir.disk.meta.lamport + 1
  {
  }

  lemma SnapshotStays(dir: Dir, dir': Dir)
    requires SnapshotOk(dir)
    requires dir.rings <= dir'.rings && dir.disk.log <= dir'.disk.log && dir.disk.snapshot == dir'.disk.snapshot
    ensures SnapshotOk(dir')
  {
    if dir.disk.snapshot.Some? {
      var s := dir.disk.snapshot.value;
      assert dir'.disk.log[..s.covered] == dir.disk.log[..s.covered];
    }
  }

  /** A longer list gives a fingerprint that no earlier keyring has. */
  lemma LongerListIsNew(a: Ring, ring: Ring, share: Uuid, keys: seq<Key>)
    requires CountLe(a, ring) && |keys| > |ListOf(ring, share)|
    ensures CountLe(a, ring[share := keys]) && Fingerprint(a) != Fingerprint(ring[share := keys])
  {
    var after := Fingerprint(ring[share := keys]);
    assert share in after && after[share] == |keys|;
    if share in a {
      assert Fingerprint(a)[share] == |a[share]| < |keys|;
    } else {
      assert share !in Fingerprint(a);
    }
  }

  lemma GrowKeepsRings(dir: Dir, h: nat, share: Uuid, keys: seq<Key>)
    requires RingsOk(dir) && LocalEnabled(dir, h, Grow(share, keys)) && KeysInOrder(dir, h, Grow(share, keys))
    ensures RingsOk(LocalNext(dir, h, Grow(share, keys)))
  {
    var ring := dir.disk.ring[share := keys];
    forall a | a in dir.rings ensures CountLe(a, ring) && Fingerprint(a) != Fingerprint(ring) {
      LongerListIsNew(a, dir.disk.ring, share, keys);
    }
    AddRing(dir.rings, ring);
    LocalFrame(dir, h, Grow(share, keys));
  }

  lemma AddRing(rings: set<Ring>, ring: Ring)
    requires forall a, b | a in rings && b in rings && Fingerprint(a) == Fingerprint(b) :: a == b
    requires forall a | a in rings :: Fingerprint(a) != Fingerprint(ring)
    ensures forall a, b | a in rings + {ring} && b in rings + {ring} && Fingerprint(a) == Fingerprint(b) :: a == b
  {
  }

  lemma StepKeepsSnapshot(dir: Dir, h: nat, op: LocalOp)
    requires LocalInv(dir) && LocalEnabled(dir, h, op)
    ensures SnapshotOk(LocalNext(dir, h, op))
  {
    match op
    case Install(keys) =>
      assert dir.disk.snapshot.None?;
    case Compact =>
      var log, ring := dir.disk.log, dir.handles[h].ring;
      assert log[..|log|] == log;
      if |log| <= |Replay(ring, log)| {
        SnapshotStays(dir, LocalNext(dir, h, op));
      }
    case _ =>
      SnapshotStays(dir, LocalNext(dir, h, op));
  }

  /** Every step, whatever it writes to the keyring, keeps the counters ordered. */
  lemma StepKeepsCounters(dir: Dir, h: nat, op: LocalOp)
    requires CountersInv(dir) && LocalEnabled(dir, h, op)
    ensures CountersInv(LocalNext(dir, h, op))
  {
    LocalStepGrows(dir, h, op);
  }

  lemma StepKeepsRings(dir: Dir, h: nat, op: LocalOp)
    requires LocalInv(dir) && LocalEnabled(dir, h, op) && KeysInOrder(dir, h, op)
    ensures RingsOk(LocalNext(dir, h, op))
  {
    if op.Grow? {
      GrowKeepsRings(dir, h, op.share, op.keys);
    }
  }

  /**
   Every step that writes keys in order keeps the snapshot sound, the fingerprints unambiguous and
   the counters ordered.
   */
  lemma LocalStepKeepsInv(dir: Dir, h: nat, op: LocalOp)
    requires LocalInv(dir) && LocalEnabled(dir, h, op) && KeysInOrder(dir, h, op)
    ensures LocalInv(LocalNext(dir, h, op))
  {
    StepKeepsRings(dir, h, op);
    StepKeepsSnapshot(dir, h, op);
    StepKeepsCounters(dir, h, op);
  }

  /** No operation but a key write changes a keyring, and a step changes no handle but its own. */
  lemma LocalFrame(dir: Dir, h: nat, op: LocalOp)
    requires LocalEnabled(dir, h, op)
    ensures var dir' := LocalNext(dir, h, op);
            && (forall k | k != h :: k in dir'.handles <==> k in dir.handles)
            && (forall k | k != h && k in dir.handles :: dir'.handles[k] == dir.handles[k])
            && (h in dir'.handles <==> !op.Close?)
            && (!op.Grow? && !op.Install? ==>
                  && dir'.disk.ring == dir.disk.ring
                  && (h in dir'.handles ==>
                        dir'.handles[h].ring == if op.Open? then dir.disk.ring else dir.handles[h].ring))
            && (op.Grow? ==>
                  && dir'.disk.ring == dir'.handles[h].ring == dir.handles[h].ring[op.share := op.keys]
                  && dir'.disk == dir.disk.(ring := dir'.disk.ring)
                  && dir'.handles[h] == dir.handles[h].(ring := dir'.disk.ring))
  {
  }

  /** The log grows by what is appended or applied, and a handle waits only for a record it got a clock for. */
  lemma SectionBrings(dir: Dir, h: nat, op: LocalOp)
    requires LocalEnabled(dir, h, op)
    ensures var dir' := LocalNext(dir, h, op);
            && dir'.disk.log == dir.disk.log + (if op.Append? then [SealedFrame(dir.handles[h], op.entry)]
                                                else if op.Apply? then [op.frame] else [])
            && (h in dir'.handles && dir'.handles[h].pending.Some? ==>
                  op.Issue? && dir'.handles[h].pending.value in DraftedBy(dir, h, op))
  {
  }

  // ---- runs ------------------------------------------------------------------

  datatype LocalStep = LocalStep(handle: nat, op: LocalOp)

  ghost predicate StepAt(dirs: seq<Dir>, steps: seq<LocalStep>, i: nat)
    requires i < |steps| < |dirs|
  {
    && LocalEnabled(dirs[i], steps[i].handle, steps[i].op)
    && dirs[i + 1] == LocalNext(dirs[i], steps[i].handle, steps[i].op)
  }

  ghost predicate LocalRun(dirs: seq<Dir>, steps: seq<LocalStep>) {
    && |dirs| == |steps| + 1
    && (exists device, key :: dirs[0] == NewDir(device, [key]))
    && (forall i: nat | i < |steps| :: StepAt(dirs, steps, i))
  }

  lemma {:induction false} LocalRunKeepsCounters(dirs: seq<Dir>, steps: seq<LocalStep>, n: nat)
    requires LocalRun(dirs, steps) && n < |dirs|
    ensures CountersInv(dirs[n])
  {
    if n > 0 {
      LocalRunKeepsCounters(dirs, steps, n - 1);
      assert StepAt(dirs, steps, n - 1);
      StepKeepsCounters(dirs[n - 1], steps[n - 1].handle, steps[n - 1].op);
    }
  }

  lemma RunStepGrows(dirs: seq<Dir>, steps: seq<LocalStep>, n: nat)
    requires LocalRun(dirs, steps) && n < |steps|
    ensures Grew(dirs[n].disk, dirs[n + 1].disk)
  {
    LocalRunKeepsCounters(dirs, steps, n);
    assert StepAt(dirs, steps, n);
    LocalStepGrows(dirs[n], steps[n].handle, steps[n].op);
  }

  lemma {:induction false} LocalRunGrows(dirs: seq<Dir>, steps: seq<LocalStep>, m: nat, n: nat)
    requires LocalRun(dirs, steps) && m <= n < |dirs|
    ensures Grew(dirs[m].disk, dirs[n].disk)
  {
    if m < n {
      LocalRunGrows(dirs, steps, m, n - 1);
      RunStepGrows(dirs, steps, n - 1);
    }
  }

  /** The clock that step `i` of a run hands out. */
  function IssuedAt(dirs: seq<Dir>, steps: seq<LocalStep>, i: nat): Clock
    requires i < |steps| < |dirs| && steps[i].handle in dirs[i].handles
  {
    NextClock(ViewOf(dirs[i], steps[i].handle))
  }

  /**
   Over any interleaving of any number of handles, stale ones included, whatever any of them writes to
   the keyring, clocks issued later are strictly greater.
   */
  lemma NoClockReuse(dirs: seq<Dir>, steps: seq<LocalStep>, i: nat, j: nat)
    requires LocalRun(dirs, steps) && i < j < |steps|
    requires steps[i].op.Issue? && steps[j].op.Issue?
    requires StepAt(dirs, steps, i) && StepAt(dirs, steps, j)
    ensures IssuedAt(dirs, steps, i).Before(IssuedAt(dirs, steps, j))
    ensures IssuedAt(dirs, steps, i).device == IssuedAt(dirs, steps, j).device
  {
    LocalRunKeepsCounters(dirs, steps, i);
    LocalRunKeepsCounters(dirs, steps, j);
    assert StepAt(dirs, steps, i) && StepAt(dirs, steps, j);
    LocalStepGrows(dirs[i], steps[i].handle, steps[i].op);
    LocalStepGrows(dirs[j], steps[j].handle, steps[j].op);
    LocalRunGrows(dirs, steps, i + 1, j);
  }

  /** A run whose handles write the keyring in order (H6). */
  ghost predicate OrderlyRun(dirs: seq<Dir>, steps: seq<LocalStep>) {
    && LocalRun(dirs, steps)
    && (forall i: nat {:trigger KeysInOrder(dirs[i], steps[i].handle, steps[i].op)} | i < |steps| ::
          KeysInOrder(dirs[i], steps[i].handle, steps[i].op))
  }

  lemma {:induction false} OrderlyRunKeepsInv(dirs: seq<Dir>, steps: seq<LocalStep>, n: nat)
    requires OrderlyRun(dirs, steps) && n < |dirs|
    ensures LocalInv(dirs[n])
  {
    if n > 0 {
      OrderlyRunKeepsInv(dirs, steps, n - 1);
      assert StepAt(dirs, steps, n - 1);
      assert KeysInOrder(dirs[n - 1], steps[n - 1].handle, steps[n - 1].op);
      LocalStepKeepsInv(dirs[n - 1], steps[n - 1].handle, steps[n - 1].op);
    }
  }

  lemma ReloadIsReplay(dir: Dir, h: nat)
    requires LocalInv(dir) && h in dir.handles
    ensures Reloaded(ViewOf(dir, h)).me.state == Replay(dir.handles[h].ring, dir.disk.log)
    ensures Replayed(Refreshed(ViewOf(dir, h))).me.state == Replay(dir.handles[h].ring, dir.disk.log)
  {
    SnapshotRefinesReplay(dir, dir.handles[h].ring);
    ReplayedIsReplay(dir, Refreshed(ViewOf(dir, h)).me);
  }

  lemma OpenIsReplay(dir: Dir)
    requires LocalInv(dir)
    ensures Opened(dir.disk).state == Replay(dir.disk.ring, dir.disk.log)
    ensures Replayed(Unlocked(dir.disk)).me.state == Replay(dir.disk.ring, dir.disk.log)
  {
    SnapshotRefinesReplay(dir, dir.disk.ring);
    ReplayedIsReplay(dir, Unlocked(dir.disk).me);
  }

  /**
   At every point of a run with orderly key writes an open, and a reload by any handle, yield the
   replay of the whole log, also when they compact on the way.
   */
  lemma OpenEqualsReplay(dirs: seq<Dir>, steps: seq<LocalStep>, n: nat)
    requires OrderlyRun(dirs, steps) && n < |dirs|
    ensures Opened(dirs[n].disk).state == Replay(dirs[n].disk.ring, dirs[n].disk.log)
    ensures Replayed(Unlocked(dirs[n].disk)).me.state == Replay(dirs[n].disk.ring, dirs[n].disk.log)
    ensures forall h | h in dirs[n].handles ::
              && Reloaded(ViewOf(dirs[n], h)).me.state == Replay(dirs[n].handles[h].ring, dirs[n].disk.log)
              && Replayed(Refreshed(ViewOf(dirs[n], h))).me.state == Replay(dirs[n].handles[h].ring, dirs[n].disk.log)
  {
    OrderlyRunKeepsInv(dirs, steps, n);
    OpenIsReplay(dirs[n]);
    forall h | h in dirs[n].handles
      ensures Reloaded(ViewOf(dirs[n], h)).me.state == Replay(dirs[n].handles[h].ring, dirs[n].disk.log)
      ensures Replayed(Refreshed(ViewOf(dirs[n], h))).me.state == Replay(dirs[n].handles[h].ring, dirs[n].disk.log)
    {
      ReloadIsReplay(dirs[n], h);
    }
  }

  /**
   Two different keyrings with one fingerprint make a stale snapshot usable: whatever it holds is
   then taken over unchecked. This is why every keyring change must raise some count.
   */
  lemma EqualFingerprintTrustsSnapshot(r1: Ring, r2: Ring, log: seq<Frame>)
    requires Fingerprint(r1) == Fingerprint(r2)
    ensures FoldFromSnapshot(r2, log, Some(Snapshot(|log|, Fingerprint(r1), Replay(r1, log)))) == Replay(r1, log)
  {
    assert log[|log|..] == [];
  }
}
