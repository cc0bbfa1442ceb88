/**
 Any number of devices under no hypothesis at all: any handle of any device, stale or not, may at any
 time write records, write any longer key list, take in any frame that was ever sealed, move its
 cursor, reload or compact. Clocks stay unique and snapshots coherent whatever happens to keys, cursors
 and rounds, which discharges the condition under which merging is independent of order.
 The runs of module Protocol are among these runs (module ProtocolRuns).
 */
module Fleet {
  import opened Wrappers
  import opened Records
  import opened Merging
  import opened Keyrings
  import opened VaultSpec
  import opened VaultRuns

  /** All vault directories; `frames` and `issued` are all frames ever sealed and all records ever given a clock. */
  datatype World = World(dirs: map<Uuid, Dir>, frames: set<Frame>, issued: set<Record>)

  /** `Rest` is anything that touches no directory. */
  datatype Move = Rest | Arrive(d: Uuid, keys: seq<Key>) | Section(d: Uuid, h: nat, op: LocalOp)

  /** Ids are fresh where they are drawn, and a frame that is taken in was sealed by some device. */
  predicate FreshIn(w: World, op: LocalOp) {
    match op
    case Issue(AddIntent(id, _, _, _), _) => forall r | r in w.issued :: r.id != id
    case Append(entry) => forall f | f in w.frames :: f.id != entry
    case Apply(f) => f in w.frames
    case _ => true
  }

  predicate MoveEnabled(w: World, m: Move) {
    match m
    case Rest => true
    case Arrive(d, _) => d !in w.dirs
    case Section(d, h, op) => d in w.dirs && LocalEnabled(w.dirs[d], h, op) && FreshIn(w, op)
  }

  function Moved(w: World, m: Move): World
    requires MoveEnabled(w, m)
  {
    match m
    case Rest => w
    case Arrive(d, keys) => w.(dirs := w.dirs[d := NewDir(d, keys)])
    case Section(d, h, op) =>
      World(w.dirs[d := LocalNext(w.dirs[d], h, op)],
            w.frames + SealedBy(w.dirs[d], h, op),
            w.issued + DraftedBy(w.dirs[d], h, op))
  }

  const NOBODY := World(map[], {}, {})

  // ---- memory is built from the log ---------------------------------------------------

  /** Every record in memory is put together from snapshots of that record in `rs`. */
  ghost predicate StateBuilt(state: State, rs: set<Record>) {
    forall id | id in state :: state[id].id == id && BuiltFrom(state[id], WithId(rs, id))
  }

  lemma StateBuiltMore(state: State, rs: set<Record>, more: set<Record>)
    requires StateBuilt(state, rs) && rs <= more
    ensures StateBuilt(state, more)
  {
    forall id | id in state ensures BuiltFrom(state[id], WithId(more, id)) {
      BuiltFromMore(state[id], WithId(rs, id), WithId(more, id));
    }
  }

  lemma MergeIntoBuilt(state: State, rs: set<Record>, r: Record)
    requires StateBuilt(state, rs) && r in rs
    ensures StateBuilt(MergeInto(state, r), rs)
  {
    var same := WithId(rs, r.id);
    SelfBuilt(r);
    BuiltFromMore(r, {r}, same);
    if r.id in state {
      JoinBuiltFrom(state[r.id], r, same);
    }
  }

  lemma {:induction false} FoldBuilt(state: State, qs: seq<Record>, rs: set<Record>)
    requires StateBuilt(state, rs) && forall r | r in qs :: r in rs
    ensures StateBuilt(FoldInto(state, qs), rs)
  {
    if qs != [] {
      FoldBuilt(state, qs[..|qs| - 1], rs);
      MergeIntoBuilt(FoldInto(state, qs[..|qs| - 1]), rs, qs[|qs| - 1]);
    }
  }

  ghost function LogRecords(log: seq<Frame>): set<Record> {
    set f | f in log :: f.blob.rec
  }

  lemma {:induction false} OpenedAreLogged(ring: Ring, frames: seq<Frame>, log: seq<Frame>)
    requires forall f | f in frames :: f in log
    ensures forall r | r in OpenedFrames(ring, frames) :: r in LogRecords(log)
  {
    if frames != [] {
      OpenedAreLogged(ring, frames[..|frames| - 1], log);
      assert frames[|frames| - 1] in log;
    }
  }

  /** What any handle has in memory, and the snapshot, are put together from records in the log. */
  ghost predicate MemoryBuilt(dir: Dir) {
    && (forall h | h in dir.handles :: StateBuilt(dir.handles[h].state, LogRecords(dir.disk.log)))
    && (dir.disk.snapshot.Some? ==> StateBuilt(dir.disk.snapshot.value.records, LogRecords(dir.disk.log)))
  }

  lemma ReplayIsLogged(ring: Ring, log: seq<Frame>)
    ensures StateBuilt(Replay(ring, log), LogRecords(log))
  {
    OpenedAreLogged(ring, log, log);
    FoldBuilt(map[], OpenedFrames(ring, log), LogRecords(log));
  }

  /** Whichever keyring the snapshot was made with, a fold from it invents nothing. */
  lemma FoldFromSnapshotIsLogged(ring: Ring, log: seq<Frame>, snapshot: Option<Snapshot>)
    requires snapshot.Some? ==> StateBuilt(snapshot.value.records, LogRecords(log))
    ensures StateBuilt(FoldFromSnapshot(ring, log, snapshot), LogRecords(log))
  {
    if SnapshotUsable(ring, log, snapshot) {
      var tail := log[snapshot.value.covered..];
      OpenedAreLogged(ring, tail, log);
      FoldBuilt(snapshot.value.records, OpenedFrames(ring, tail), LogRecords(log));
    } else {
      ReplayIsLogged(ring, log);
    }
  }

  lemma LoggedStays(log: seq<Frame>, log': seq<Frame>)
    requires log <= log'
    ensures LogRecords(log) <= LogRecords(log')
  {
    forall f | f in log ensures f in log' {
      var i :| 0 <= i < |log| && log[i] == f;
      assert log'[i] == f;
    }
  }

  /** The section's own handle stays built from the log. */
  lemma SectionKeepsOwn(dir: Dir, h: nat, op: LocalOp)
    requires LocalEnabled(dir, h, op) && MemoryBuilt(dir) && !op.Close?
    ensures StateBuilt(LocalNext(dir, h, op).handles[h].state, LogRecords(LocalNext(dir, h, op).disk.log))
  {
    var log' := LocalNext(dir, h, op).disk.log;
    SectionBrings(dir, h, op);
    if op.Open? {
      FoldFromSnapshotIsLogged(dir.disk.ring, dir.disk.log, dir.disk.snapshot);
    } else if op.Reload? {
      FoldFromSnapshotIsLogged(dir.handles[h].ring, dir.disk.log, dir.disk.snapshot);
    } else if op.Compact? {
      ReplayIsLogged(dir.handles[h].ring, dir.disk.log);
    } else {
      var me := dir.handles[h];
      LoggedStays(dir.disk.log, log');
      StateBuiltMore(me.state, LogRecords(dir.disk.log), LogRecords(log'));
      if op.Append? || op.Apply? {
        assert log'[|dir.disk.log|] in log';
        MergeIntoBuilt(me.state, LogRecords(log'), log'[|dir.disk.log|].blob.rec);
      }
    }
  }

  lemma SectionKeepsMemory(dir: Dir, h: nat, op: LocalOp)
    requires LocalEnabled(dir, h, op) && MemoryBuilt(dir)
    ensures MemoryBuilt(LocalNext(dir, h, op))
  {
    var dir' := LocalNext(dir, h, op);
    SectionBrings(dir, h, op);
    LocalFrame(dir, h, op);
    LoggedStays(dir.disk.log, dir'.disk.log);
    if !op.Close? {
      SectionKeepsOwn(dir, h, op);
    }
    forall k | k in dir'.handles && k != h ensures StateBuilt(dir'.handles[k].state, LogRecords(dir'.disk.log)) {
      StateBuiltMore(dir.handles[k].state, LogRecords(dir.disk.log), LogRecords(dir'.disk.log));
    }
    SectionKeepsSnapshotBuilt(dir, h, op);
  }

  lemma SectionKeepsSnapshotBuilt(dir: Dir, h: nat, op: LocalOp)
    requires LocalEnabled(dir, h, op) && MemoryBuilt(dir)
    requires LogRecords(dir.disk.log) <= LogRecords(LocalNext(dir, h, op).disk.log)
    ensures var disk' := LocalNext(dir, h, op).disk;
            disk'.snapshot.Some? ==> StateBuilt(disk'.snapshot.value.records, LogRecords(disk'.log))
  {
    var disk' := LocalNext(dir, h, op).disk;
    if disk'.snapshot.Some? {
      if disk'.snapshot == dir.disk.snapshot {
        StateBuiltMore(disk'.snapshot.value.records, LogRecords(dir.disk.log), LogRecords(disk'.log));
      } else {
        ReplayIsLogged(dir.handles[h].ring, dir.disk.log);
      }
    }
  }

  // ---- records that got a clock -------------------------------------------------------

  predicate Known(dirs: map<Uuid, Dir>, c: Clock) {
    c.device in dirs && c.lamport <= dirs[c.device].disk.meta.lamport
  }

  predicate RecordKnown(dirs: map<Uuid, Dir>, r: Record) {
    && r.clock.device == r.deviceId
    && Known(dirs, r.clock)
    && (forall n | n in r.fields :: Known(dirs, r.fields[n].clock))
  }

  /** A clock names one record; snapshots of one record agree wherever their clocks do, and on their share. */
  predicate Agree(a: Record, b: Record) {
    && (a.clock == b.clock ==> a == b)
    && (a.id == b.id ==> Coherent(a, b) && a.shareId == b.shareId)
  }

  ghost predicate IssuedOk(dirs: map<Uuid, Dir>, issued: set<Record>) {
    && (forall r {:trigger RecordKnown(dirs, r)} | r in issued :: RecordKnown(dirs, r))
    && (forall a, b {:trigger Agree(a, b)} | a in issued && b in issued :: Agree(a, b))
  }

  /** Counters only grow, so what is known stays known. */
  ghost predicate CountersGrow(dirs: map<Uuid, Dir>, dirs': map<Uuid, Dir>) {
    forall d | d in dirs :: d in dirs' && dirs[d].disk.meta.lamport <= dirs'[d].disk.meta.lamport
  }

  lemma KnownStays(dirs: map<Uuid, Dir>, dirs': map<Uuid, Dir>, issued: set<Record>)
    requires IssuedOk(dirs, issued) && CountersGrow(dirs, dirs')
    ensures IssuedOk(dirs', issued)
  {
    forall r | r in issued ensures RecordKnown(dirs', r) {
      assert RecordKnown(dirs, r);
    }
  }

  /** A field of a draft has the draft's own clock or is copied from a snapshot of the record. */
  lemma DraftFields(me: Handle, i: Intent, c: Clock, now: nat, rs: set<Record>)
    requires CanDraft(me, i) && StateBuilt(me.state, rs)
    ensures var r := Draft(me, i, c, now);
            && r.clock == c && r.deviceId == me.meta.deviceId
            && (!i.AddIntent? ==> r.id == i.id && exists q :: q in WithId(rs, r.id) && q.shareId == r.shareId)
            && (i.AddIntent? ==> r.id == i.id)
            && (forall n | n in r.fields ::
                  r.fields[n].clock == c || (!i.AddIntent? && HasField(WithId(rs, r.id), n, r.fields[n])))
  {
    if !i.AddIntent? {
      var before := me.state[i.id];
      assert BuiltFrom(before, WithId(rs, i.id));
      assert HasStamp(WithId(rs, i.id), before.clock, before.deviceId, before.shareId);
      forall n | n in before.fields ensures HasField(WithId(rs, i.id), n, before.fields[n]) {
      }
    }
  }

  /** A clock no record carries yet. */
  ghost predicate FreshClock(issued: set<Record>, c: Clock) {
    forall r | r in issued :: r.clock != c && forall n | n in r.fields :: r.fields[n].clock != c
  }

  ghost predicate FreshId(issued: set<Record>, i: Intent) {
    i.AddIntent? ==> forall r | r in issued :: r.id != i.id
  }

  lemma DraftAgrees(dirs: map<Uuid, Dir>, issued: set<Record>, me: Handle, i: Intent, c: Clock, now: nat, b: Record)
    requires IssuedOk(dirs, issued) && StateBuilt(me.state, issued) && CanDraft(me, i)
    requires FreshClock(issued, c) && FreshId(issued, i) && b in issued
    ensures Agree(Draft(me, i, c, now), b) && Agree(b, Draft(me, i, c, now))
  {
    var r := Draft(me, i, c, now);
    DraftFields(me, i, c, now, issued);
    if r.id == b.id {
      forall n | n in r.fields && n in b.fields && r.fields[n].clock == b.fields[n].clock
        ensures r.fields[n] == b.fields[n]
      {
        var q :| q in WithId(issued, r.id) && n in q.fields && q.fields[n] == r.fields[n];
        assert Agree(q, b);
      }
      var q :| q in WithId(issued, r.id) && q.shareId == r.shareId;
      assert Agree(q, b);
    }
  }

  lemma NextClockIsFresh(dirs: map<Uuid, Dir>, issued: set<Record>, d: Uuid, h: nat)
    requires IssuedOk(dirs, issued) && d in dirs && h in dirs[d].handles
    requires CountersInv(dirs[d]) && dirs[d].disk.meta.deviceId == d
    ensures FreshClock(issued, NextClock(ViewOf(dirs[d], h)))
    ensures NextClock(ViewOf(dirs[d], h)) == Clock(dirs[d].disk.meta.lamport + 1, d)
    ensures dirs[d].handles[h].meta.deviceId == d
  {
    var c := NextClock(ViewOf(dirs[d], h));
    assert CountersOk(dirs[d].disk, dirs[d].handles[h]);
    forall r | r in issued ensures r.clock != c && forall n | n in r.fields :: r.fields[n].clock != c {
      assert RecordKnown(dirs, r);
    }
  }

  lemma DraftIsKnown(dirs: map<Uuid, Dir>, dirs': map<Uuid, Dir>, issued: set<Record>, me: Handle, i: Intent,
                     c: Clock, now: nat)
    requires IssuedOk(dirs, issued) && StateBuilt(me.state, issued) && CanDraft(me, i)
    requires CountersGrow(dirs, dirs') && Known(dirs', c) && c.device == me.meta.deviceId
    ensures RecordKnown(dirs', Draft(me, i, c, now))
  {
    DraftFields(me, i, c, now, issued);
    var r := Draft(me, i, c, now);
    forall n | n in r.fields ensures Known(dirs', r.fields[n].clock) {
      if r.fields[n].clock != c {
        var q :| q in WithId(issued, r.id) && n in q.fields && q.fields[n] == r.fields[n];
        assert RecordKnown(dirs, q);
      }
    }
  }

  lemma AddIssued(dirs: map<Uuid, Dir>, issued: set<Record>, r: Record)
    requires IssuedOk(dirs, issued) && RecordKnown(dirs, r) && FreshClock(issued, r.clock)
    requires forall b | b in issued :: Agree(r, b) && Agree(b, r)
    ensures IssuedOk(dirs, issued + {r})
  {
    assert Agree(r, r);
  }

  /** The record an issued clock goes into keeps all issued records coherent. */
  lemma IssueKeepsIssued(dirs: map<Uuid, Dir>, dirs': map<Uuid, Dir>, issued: set<Record>, d: Uuid, h: nat, i: Intent,
                         now: nat)
    requires IssuedOk(dirs, issued) && d in dirs && h in dirs[d].handles && FreshId(issued, i)
    requires CountersInv(dirs[d]) && dirs[d].disk.meta.deviceId == d
    requires StateBuilt(dirs[d].handles[h].state, issued) && CanDraft(dirs[d].handles[h], i)
    requires CountersGrow(dirs, dirs') && Known(dirs', NextClock(ViewOf(dirs[d], h)))
    ensures IssuedOk(dirs', issued + {Draft(dirs[d].handles[h], i, NextClock(ViewOf(dirs[d], h)), now)})
  {
    var me, c := dirs[d].handles[h], NextClock(ViewOf(dirs[d], h));
    var r := Draft(me, i, c, now);
    NextClockIsFresh(dirs, issued, d, h);
    DraftIsKnown(dirs, dirs', issued, me, i, c, now);
    DraftFields(me, i, c, now, issued);
    forall b | b in issued ensures Agree(r, b) && Agree(b, r) {
      DraftAgrees(dirs, issued, me, i, c, now, b);
    }
    KnownStays(dirs, dirs', issued);
    AddIssued(dirs', issued, r);
  }

  // ---- the invariant ----------------------------------------------------------------------

  /** A frame is sealed for its own id, which names it, around a record that got a clock. */
  ghost predicate FramesOk(frames: set<Frame>, issued: set<Record>) {
    && (forall f | f in frames :: f.blob.aad == f.id && f.blob.rec in issued)
    && (forall f, g | f in frames && g in frames && f.id == g.id :: f == g)
  }

  ghost predicate VaultOk(d: Uuid, dir: Dir, frames: set<Frame>, issued: set<Record>) {
    && dir.disk.meta.deviceId == d
    && CountersInv(dir)
    && (forall f | f in dir.disk.log :: f in frames)
    && (forall h | h in dir.handles && dir.handles[h].pending.Some? :: dir.handles[h].pending.value in issued)
    && MemoryBuilt(dir)
  }

  ghost predicate FleetInv(w: World) {
    && FramesOk(w.frames, w.issued)
    && IssuedOk(w.dirs, w.issued)
    && (forall d | d in w.dirs :: VaultOk(d, w.dirs[d], w.frames, w.issued))
  }

  lemma LoggedIsIssued(log: seq<Frame>, frames: set<Frame>, issued: set<Record>)
    requires FramesOk(frames, issued) && forall f | f in log :: f in frames
    ensures LogRecords(log) <= issued
  {
  }

  lemma SectionKeepsFiles(w: World, d: Uuid, h: nat, op: LocalOp)
    requires MoveEnabled(w, Section(d, h, op)) && VaultOk(d, w.dirs[d], w.frames, w.issued)
    ensures var w' := Moved(w, Section(d, h, op));
            && VaultOk(d, w'.dirs[d], w'.frames, w'.issued)
            && Grew(w.dirs[d].disk, w'.dirs[d].disk)
  {
    var dir := w.dirs[d];
    StepKeepsCounters(dir, h, op);
    LocalStepGrows(dir, h, op);
    SectionBrings(dir, h, op);
    LocalFrame(dir, h, op);
    SectionKeepsMemory(dir, h, op);
  }

  lemma SectionKeepsFrames(w: World, d: Uuid, h: nat, op: LocalOp)
    requires FleetInv(w) && MoveEnabled(w, Section(d, h, op))
    ensures FramesOk(w.frames + SealedBy(w.dirs[d], h, op), w.issued + DraftedBy(w.dirs[d], h, op))
  {
    assert VaultOk(d, w.dirs[d], w.frames, w.issued);
  }

  lemma SectionKeepsIssued(w: World, d: Uuid, h: nat, op: LocalOp, dir': Dir)
    requires FramesOk(w.frames, w.issued) && IssuedOk(w.dirs, w.issued)
    requires MoveEnabled(w, Section(d, h, op)) && VaultOk(d, w.dirs[d], w.frames, w.issued)
    requires dir' == LocalNext(w.dirs[d], h, op)
    ensures IssuedOk(w.dirs[d := dir'], w.issued + DraftedBy(w.dirs[d], h, op))
  {
    var dir := w.dirs[d];
    LocalStepGrows(dir, h, op);
    assert CountersGrow(w.dirs, w.dirs[d := dir']);
    if op.Issue? {
      LoggedIsIssued(dir.disk.log, w.frames, w.issued);
      StateBuiltMore(dir.handles[h].state, LogRecords(dir.disk.log), w.issued);
      NextClockIsFresh(w.dirs, w.issued, d, h);
      IssueKeepsIssued(w.dirs, w.dirs[d := dir'], w.issued, d, h, op.intent, op.now);
    } else {
      KnownStays(w.dirs, w.dirs[d := dir'], w.issued);
    }
  }

  lemma OthersStayOk(w: World, w': World, d: Uuid)
    requires forall e | e in w.dirs :: VaultOk(e, w.dirs[e], w.frames, w.issued)
    requires w.frames <= w'.frames && w.issued <= w'.issued
    requires forall e | e in w'.dirs && e != d :: e in w.dirs && w'.dirs[e] == w.dirs[e]
    ensures forall e | e in w'.dirs && e != d :: VaultOk(e, w'.dirs[e], w'.frames, w'.issued)
  {
    forall e | e in w'.dirs && e != d ensures VaultOk(e, w'.dirs[e], w'.frames, w'.issued) {
      assert VaultOk(e, w.dirs[e], w.frames, w.issued);
    }
  }

  lemma ArrivalKeepsInv(w: World, d: Uuid, keys: seq<Key>)
    requires FleetInv(w) && d !in w.dirs
    ensures FleetInv(Moved(w, Arrive(d, keys)))
  {
    var w' := Moved(w, Arrive(d, keys));
    assert CountersGrow(w.dirs, w'.dirs);
    KnownStays(w.dirs, w'.dirs, w.issued);
    OthersStayOk(w, w', d);
  }

  /** Every move keeps clocks unique, snapshots coherent and memory built from the log. */
  lemma MoveKeepsInv(w: World, m: Move)
    requires FleetInv(w) && MoveEnabled(w, m)
    ensures FleetInv(Moved(w, m))
  {
    match m
    case Rest =>
    case Arrive(d, keys) => ArrivalKeepsInv(w, d, keys);
    case Section(d, h, op) =>
      assert VaultOk(d, w.dirs[d], w.frames, w.issued);
      SectionKeepsFiles(w, d, h, op);
      SectionKeepsFrames(w, d, h, op);
      SectionKeepsIssued(w, d, h, op, LocalNext(w.dirs[d], h, op));
      OthersStayOk(w, Moved(w, m), d);
  }

  // ---- runs ----------------------------------------------------------------------------------

  ghost predicate MoveAt(ws: seq<World>, ms: seq<Move>, i: nat)
    requires i < |ms| < |ws|
  {
    MoveEnabled(ws[i], ms[i]) && ws[i + 1] == Moved(ws[i], ms[i])
  }

  ghost predicate FleetRun(ws: seq<World>, ms: seq<Move>) {
    && |ws| == |ms| + 1
    && ws[0] == NOBODY
    && (forall i: nat | i < |ms| :: MoveAt(ws, ms, i))
  }

  lemma {:induction false} FleetRunKeepsInv(ws: seq<World>, ms: seq<Move>, n: nat)
    requires FleetRun(ws, ms) && n < |ws|
    ensures FleetInv(ws[n])
  {
    if n > 0 {
      FleetRunKeepsInv(ws, ms, n - 1);
      assert MoveAt(ws, ms, n - 1);
      MoveKeepsInv(ws[n - 1], ms[n - 1]);
    }
  }

  lemma {:induction false} IssuedStays(ws: seq<World>, ms: seq<Move>, m: nat, n: nat)
    requires FleetRun(ws, ms) && m <= n < |ws|
    ensures ws[m].issued <= ws[n].issued
  {
    if m < n {
      IssuedStays(ws, ms, m, n - 1);
      assert MoveAt(ws, ms, n - 1);
    }
  }

  /** The move hands a clock to the record. */
  predicate Issues(w: World, m: Move, r: Record) {
    m.Section? && m.d in w.dirs && r in DraftedBy(w.dirs[m.d], m.h, m.op)
  }

  lemma IssuedClockIsFresh(w: World, m: Move, r: Record)
    requires FleetInv(w) && Issues(w, m, r)
    ensures FreshClock(w.issued, r.clock)
  {
    assert VaultOk(m.d, w.dirs[m.d], w.frames, w.issued);
    NextClockIsFresh(w.dirs, w.issued, m.d, m.h);
  }

  /** Clocks issued by two different moves differ, whichever devices and handles issue them. */
  lemma ClocksAreDistinct(ws: seq<World>, ms: seq<Move>, i: nat, j: nat, r: Record, q: Record)
    requires FleetRun(ws, ms) && i < j < |ms| && Issues(ws[i], ms[i], r) && Issues(ws[j], ms[j], q)
    ensures r.clock != q.clock
  {
    assert MoveAt(ws, ms, i) && MoveAt(ws, ms, j);
    assert r in ws[i + 1].issued;
    IssuedStays(ws, ms, i + 1, j);
    FleetRunKeepsInv(ws, ms, j);
    IssuedClockIsFresh(ws[j], ms[j], q);
  }

  lemma IssuedAreCoherent(dirs: map<Uuid, Dir>, issued: set<Record>, rs: set<Record>)
    requires IssuedOk(dirs, issued) && rs <= issued
    ensures CoherentSet(rs)
  {
    forall a, b | a in rs && b in rs && a.id == b.id ensures Coherent(a, b) {
      assert Agree(a, b);
    }
  }

  /** On every run all records in the logs of any two devices are coherent, and so is whatever is read from them. */
  lemma SnapshotsAreCoherent(ws: seq<World>, ms: seq<Move>, n: nat, d: Uuid, e: Uuid)
    requires FleetRun(ws, ms) && n < |ws| && d in ws[n].dirs && e in ws[n].dirs
    ensures CoherentSet(LogRecords(ws[n].dirs[d].disk.log) + LogRecords(ws[n].dirs[e].disk.log))
    ensures forall r1, r2 :: CoherentSet(Readable(r1, ws[n].dirs[d].disk.log) + Readable(r2, ws[n].dirs[e].disk.log))
  {
    FleetRunKeepsInv(ws, ms, n);
    var w := ws[n];
    assert VaultOk(d, w.dirs[d], w.frames, w.issued) && VaultOk(e, w.dirs[e], w.frames, w.issued);
    LoggedIsIssued(w.dirs[d].disk.log, w.frames, w.issued);
    LoggedIsIssued(w.dirs[e].disk.log, w.frames, w.issued);
    IssuedAreCoherent(w.dirs, w.issued, LogRecords(w.dirs[d].disk.log) + LogRecords(w.dirs[e].disk.log));
  }

  // ---- what a handle took in -----------------------------------------------------------------

  /** The handle opens the record as it takes in its frame, or appends it. */
  predicate Takes(w: World, m: Move, d: Uuid, h: nat, rec: Record) {
    && m.Section? && m.d == d && m.h == h && d in w.dirs && h in w.dirs[d].handles
    && ((m.op.Apply? && Opens(w.dirs[d].handles[h].ring, m.op.frame) && m.op.frame.blob.rec == rec)
        || (m.op.Append? && w.dirs[d].handles[h].pending == Some(rec)))
  }

  /** The handle builds its memory anew, or is closed. */
  predicate Forgets(m: Move, d: Uuid, h: nat) {
    m.Section? && m.d == d && m.h == h && (m.op.Reload? || m.op.Compact? || m.op.Install? || m.op.Close?)
  }

  ghost predicate Shown(w: World, d: Uuid, h: nat, rec: Record) {
    d in w.dirs && h in w.dirs[d].handles && ShowsRecord(w.dirs[d].handles[h].state, rec)
  }

  lemma TakingShows(w: World, m: Move, d: Uuid, h: nat, rec: Record)
    requires FleetInv(w) && MoveEnabled(w, m) && Takes(w, m, d, h, rec)
    ensures Shown(Moved(w, m), d, h, rec)
  {
    assert VaultOk(d, w.dirs[d], w.frames, w.issued);
    MergeShows(w.dirs[d].handles[h].state, rec);
  }

  lemma MoveKeepsShown(w: World, m: Move, d: Uuid, h: nat, rec: Record)
    requires FleetInv(w) && MoveEnabled(w, m) && Shown(w, d, h, rec) && !Forgets(m, d, h)
    ensures Shown(Moved(w, m), d, h, rec)
  {
    if m.Section? && m.d == d {
      assert VaultOk(d, w.dirs[d], w.frames, w.issued);
      LocalFrame(w.dirs[d], m.h, m.op);
      if m.h == h && m.op.Append? {
        MergeShows(w.dirs[d].handles[h].state, w.dirs[d].handles[h].pending.value);
      } else if m.h == h && m.op.Apply? {
        AppliedIsShown(ViewOf(w.dirs[d], h), m.op.frame);
      }
    }
  }

  lemma {:induction false} ShownStays(ws: seq<World>, ms: seq<Move>, i: nat, n: nat, d: Uuid, h: nat, rec: Record)
    requires FleetRun(ws, ms) && i <= n < |ws| && Shown(ws[i], d, h, rec)
    requires forall k: nat {:trigger ms[k]} | i <= k < n :: !Forgets(ms[k], d, h)
    ensures Shown(ws[n], d, h, rec)
  {
    if i < n {
      ShownStays(ws, ms, i, n - 1, d, h, rec);
      FleetRunKeepsInv(ws, ms, n - 1);
      assert MoveAt(ws, ms, n - 1);
      assert !Forgets(ms[n - 1], d, h);
      MoveKeepsShown(ws[n - 1], ms[n - 1], d, h, rec);
    }
  }

  /**
   On every run a record that a handle took in, pulled and opened or appended itself, shows in its
   memory from then on, until the handle builds its memory anew, whatever keys come and go.
   */
  lemma TakenIsShown(ws: seq<World>, ms: seq<Move>, i: nat, n: nat, d: Uuid, h: nat, rec: Record)
    requires FleetRun(ws, ms) && i < n < |ws| && Takes(ws[i], ms[i], d, h, rec)
    requires forall k: nat {:trigger ms[k]} | i < k < n :: !Forgets(ms[k], d, h)
    ensures Shown(ws[n], d, h, rec)
  {
    FleetRunKeepsInv(ws, ms, i);
    assert MoveAt(ws, ms, i);
    TakingShows(ws[i], ms[i], d, h, rec);
    ShownStays(ws, ms, i + 1, n, d, h, rec);
  }
}
