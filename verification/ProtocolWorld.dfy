/**
 What ties the system to the fleet of its vault directories. Every action is a move of the fleet, so
 clocks name records and snapshots are coherent; under H4 and H6, moreover, every frame is sealed
 under a key of its record's share, the snapshot is sound, and what a handle has in memory is
 built from records its log and keyring open.
 */
module ProtocolWorld {
  import opened Records
  import opened Keyrings
  import opened VaultSpec
  import opened VaultRuns
  import opened Fleet
  import opened RelaySpec
  import opened Protocol
  import opened ProtocolSteps
  import opened ProtocolKeys

  // ---- states built from what is readable -----------------------------------------

  lemma ReadableGrows(ring: Ring, log: seq<Frame>, ring': Ring, log': seq<Frame>)
    requires RingLe(ring, ring') && log <= log'
    ensures Readable(ring, log) <= Readable(ring', log')
  {
    forall f | f in log && Opens(ring, f) ensures f in log' && Opens(ring', f) {
      GrowthKeepsOpen(ring, ring', f);
    }
  }

  lemma ReplayBuilt(ring: Ring, log: seq<Frame>)
    ensures StateBuilt(Replay(ring, log), Readable(ring, log))
  {
    ReplayIsJoin(ring, log);
  }

  // ---- one directory -----------------------------------------------------------------

  ghost predicate HandleBuilt(me: Handle, log: seq<Frame>) {
    StateBuilt(me.state, Readable(me.ring, log))
  }

  ghost predicate DirWorld(d: Uuid, dir: Dir, world: set<Frame>, issued: set<Record>) {
    && VaultOk(d, dir, world, issued)
    && LocalInv(dir)
    && (forall h | h in dir.handles :: HandleBuilt(dir.handles[h], dir.disk.log))
  }

  /** The section's own handle stays built from what it can read. */
  lemma SectionKeepsBuilt(dir: Dir, h: nat, op: LocalOp)
    requires LocalInv(dir) && LocalEnabled(dir, h, op) && !op.Install? && !op.Close?
    requires h in dir.handles ==> HandleBuilt(dir.handles[h], dir.disk.log)
    requires op.Grow? ==> RingLe(dir.handles[h].ring, LocalNext(dir, h, op).handles[h].ring)
    ensures HandleBuilt(LocalNext(dir, h, op).handles[h], LocalNext(dir, h, op).disk.log)
  {
    var dir' := LocalNext(dir, h, op);
    var me', log' := dir'.handles[h], dir'.disk.log;
    if op.Open? || op.Reload? {
      SnapshotRefinesReplay(dir, me'.ring);
      ReplayBuilt(me'.ring, log');
    } else if op.Compact? {
      ReplayBuilt(me'.ring, log');
    } else {
      var me := dir.handles[h];
      ReadableGrows(me.ring, dir.disk.log, me'.ring, log');
      var rs := Readable(me'.ring, log');
      StateBuiltMore(me.state, Readable(me.ring, dir.disk.log), rs);
      if op.Append? {
        OwnFrameOpens(me, op.entry);
        assert log'[|dir.disk.log|] == SealedFrame(me, op.entry);
        MergeIntoBuilt(me.state, rs, me.pending.value);
      } else if op.Apply? && Opens(me.ring, op.frame) {
        assert log'[|dir.disk.log|] == op.frame;
        MergeIntoBuilt(me.state, rs, op.frame.blob.rec);
      }
    }
  }

  lemma OthersStayBuilt(dir: Dir, h: nat, op: LocalOp)
    requires LocalInv(dir) && LocalEnabled(dir, h, op)
    requires forall k | k in dir.handles :: HandleBuilt(dir.handles[k], dir.disk.log)
    ensures forall k | k in LocalNext(dir, h, op).handles && k != h ::
              HandleBuilt(LocalNext(dir, h, op).handles[k], LocalNext(dir, h, op).disk.log)
  {
    LocalFrame(dir, h, op);
    LocalStepGrows(dir, h, op);
    var dir' := LocalNext(dir, h, op);
    forall k | k in dir'.handles && k != h ensures HandleBuilt(dir'.handles[k], dir'.disk.log) {
      var me := dir.handles[k];
      ReadableGrows(me.ring, dir.disk.log, me.ring, dir'.disk.log);
      StateBuiltMore(me.state, Readable(me.ring, dir.disk.log), Readable(me.ring, dir'.disk.log));
    }
  }

  lemma SectionGrowsRing(dir: Dir, t: Touch)
    requires DirKeys(dir) && TouchEnabled(dir, t) && TouchKeys(t)
    ensures t.Touched? && t.op.Grow? ==> RingLe(dir.handles[t.h].ring, Touching(dir, t).handles[t.h].ring)
  {
    if t.Touched? && t.op.Grow? {
      GrowKeepsDir(dir, t.h, t.op.share, t.op.keys);
    }
  }

  lemma TouchKeepsBuilt(dir: Dir, t: Touch)
    requires LocalInv(dir) && DirKeys(dir) && TouchEnabled(dir, t) && TouchKeys(t)
    requires forall k | k in dir.handles :: HandleBuilt(dir.handles[k], dir.disk.log)
    ensures forall k | k in Touching(dir, t).handles ::
              HandleBuilt(Touching(dir, t).handles[k], Touching(dir, t).disk.log)
  {
    if t.Touched? {
      OthersStayBuilt(dir, t.h, t.op);
      if t.op.Close? {
        LocalFrame(dir, t.h, t.op);
      } else {
        SectionGrowsRing(dir, t);
        SectionKeepsBuilt(dir, t.h, t.op);
      }
    }
  }

  // ---- where a round stands ---------------------------------------------------------

  ghost predicate HasFrameId(log: seq<Frame>, id: Uuid) {
    exists i | 0 <= i < |log| :: log[i].id == id
  }

  ghost predicate PhaseWorld(log: seq<Frame>, p: Phase, world: set<Frame>) {
    && (p.Pushing? ==> forall t | t in p.local :: t.frame in log)
    && (p.Applying? ==> forall f | f in p.rest :: f in world)
    && (p.Pushed? || p.Applying? ==> forall id | id in p.have :: HasFrameId(log, id))
  }

  ghost predicate RowsKnown(r: Relay, world: set<Frame>) {
    forall row | row in r.entries :: row.frame in world
  }

  lemma PhaseWorldGrows(log: seq<Frame>, p: Phase, world: set<Frame>, log': seq<Frame>, world': set<Frame>)
    requires PhaseWorld(log, p, world) && log <= log' && world <= world'
    ensures PhaseWorld(log', p, world')
  {
    if p.Pushed? || p.Applying? {
      forall id | id in p.have ensures HasFrameId(log', id) {
        var i :| 0 <= i < |log| && log[i].id == id;
        assert log'[i].id == id;
      }
    }
  }

  lemma PulledFramesAreRows(r: Relay, d: Uuid, since: nat, f: Frame)
    requires f in FramesOf(PullRows(r, r.entries, d, since))
    ensures exists row :: row in r.entries && row.frame == f && row.seqno > since && MayPull(r, d, row)
  {
    var rows := PullRows(r, r.entries, d, since);
    PullReturnsExactly(r, r.entries, d, since);
    var i :| 0 <= i < |rows| && FramesOf(rows)[i] == f;
    assert rows[i] in rows;
  }

  lemma PhaseStepWorld(dev: Dev, r: Relay, d: Uuid, op: DevOp, world: set<Frame>)
    requires DevEnabled(dev, r, d, op) && PhaseWorld(dev.dir.disk.log, dev.phase, world) && RowsKnown(r, world)
    ensures PhaseWorld(dev.dir.disk.log, DevNext(dev, r, d, op).phase, world)
  {
    var p' := DevNext(dev, r, d, op).phase;
    match op
    case PushLog =>
      forall id | id in p'.have ensures HasFrameId(dev.dir.disk.log, id) {
        var t :| t in dev.phase.local && t.frame.id == id;
        var i :| 0 <= i < |dev.dir.disk.log| && dev.dir.disk.log[i] == t.frame;
      }
    case PullPast =>
      var since := dev.dir.handles[dev.phase.h].meta.cursor;
      forall f | f in p'.rest ensures f in world {
        PulledFramesAreRows(r, d, since, f);
      }
    case _ =>
  }

  // ---- the system as a fleet --------------------------------------------------------------

  /** The system's vault directories. */
  function Project(s: Sys): World {
    World(map d | d in s.devs :: s.devs[d].dir, s.world, s.issued)
  }

  /** What an action is to the fleet. */
  function MoveOf(s: Sys, a: Action): Move
    requires Enabled(s, a)
  {
    match a
    case Join(d, list) => Arrive(d, list)
    case Act(d, op) =>
      TouchMove(d, TouchOf(s.devs[d], s.relay, d, op))
    case _ => Rest
  }

  /** A frame is sealed under a key of its record's share, for its own id, which names it. */
  ghost predicate WorldOk(world: set<Frame>, issued: set<Record>) {
    FramesOk(world, issued) && forall f | f in world :: f.blob.key.share == f.blob.rec.shareId
  }

  ghost predicate DevWorld(d: Uuid, dev: Dev, world: set<Frame>, issued: set<Record>) {
    DirWorld(d, dev.dir, world, issued) && PhaseWorld(dev.dir.disk.log, dev.phase, world)
  }

  ghost predicate WorldInv(s: Sys) {
    && WorldOk(s.world, s.issued)
    && IssuedOk(Project(s).dirs, s.issued)
    && TableOk(s.relay)
    && RowsKnown(s.relay, s.world)
    && (forall d | d in s.devs :: DevWorld(d, s.devs[d], s.world, s.issued))
  }

  lemma WorldIsFleet(s: Sys)
    requires WorldInv(s)
    ensures FleetInv(Project(s))
  {
    forall d | d in Project(s).dirs ensures VaultOk(d, Project(s).dirs[d], s.world, s.issued) {
      assert DevWorld(d, s.devs[d], s.world, s.issued);
    }
  }

  lemma ReadableIsIssued(ring: Ring, log: seq<Frame>, world: set<Frame>, issued: set<Record>)
    requires FramesOk(world, issued) && forall f | f in log :: f in world
    ensures Readable(ring, log) <= issued
  {
  }

  /** What a round takes in was sealed, and fresh ids are fresh to the fleet. */
  lemma TouchIsEnabled(s: Sys, d: Uuid, op: DevOp)
    requires d in s.devs && DevEnabled(s.devs[d], s.relay, d, op) && FreshAndChained(s, d, op)
    requires PhaseWorld(s.devs[d].dir.disk.log, s.devs[d].phase, s.world)
    ensures var t := TouchOf(s.devs[d], s.relay, d, op);
            t.Touched? ==> MoveEnabled(Project(s), Section(d, t.h, t.op))
  {
    DirStep(s.devs[d], s.relay, d, op);
  }

  /** What an action seals and drafts is what its section seals and drafts. */
  lemma SectionSeals(dev: Dev, r: Relay, d: Uuid, op: DevOp)
    requires DevEnabled(dev, r, d, op)
    ensures var t := TouchOf(dev, r, d, op);
            && NewFrames(dev, op) == (if t.Touched? then SealedBy(dev.dir, t.h, t.op) else {})
            && NewDrafts(dev, op) == (if t.Touched? then DraftedBy(dev.dir, t.h, t.op) else {})
  {
  }

  function TouchMove(d: Uuid, t: Touch): Move {
    if t.Touched? then Section(d, t.h, t.op) else Rest
  }

  lemma TouchProjects(s: Sys, s': Sys, d: Uuid, t: Touch)
    requires d in s.devs && d in s'.devs && TouchEnabled(s.devs[d].dir, t) && MoveEnabled(Project(s), TouchMove(d, t))
    requires s'.devs == s.devs[d := s'.devs[d]] && s'.devs[d].dir == Touching(s.devs[d].dir, t)
    requires s'.world == s.world + (if t.Touched? then SealedBy(s.devs[d].dir, t.h, t.op) else {})
    requires s'.issued == s.issued + (if t.Touched? then DraftedBy(s.devs[d].dir, t.h, t.op) else {})
    ensures Project(s') == Moved(Project(s), TouchMove(d, t))
  {
    assert Project(s').dirs == Moved(Project(s), TouchMove(d, t)).dirs;
  }

  lemma ActIsMove(s: Sys, s': Sys, d: Uuid, op: DevOp)
    requires Acted(s, s', d, op) && PhaseWorld(s.devs[d].dir.disk.log, s.devs[d].phase, s.world)
    ensures var m := TouchMove(d, TouchOf(s.devs[d], s.relay, d, op));
            MoveEnabled(Project(s), m) && Project(s') == Moved(Project(s), m)
  {
    TouchIsEnabled(s, d, op);
    DirStep(s.devs[d], s.relay, d, op);
    SectionSeals(s.devs[d], s.relay, d, op);
    TouchProjects(s, s', d, TouchOf(s.devs[d], s.relay, d, op));
  }

  lemma JoinIsMove(s: Sys, s': Sys, d: Uuid, list: seq<Key>)
    requires d !in s.devs && s'.devs == s.devs[d := Dev(NewDir(d, list), Idle)]
    requires s'.world == s.world && s'.issued == s.issued
    ensures Project(s') == Moved(Project(s), Arrive(d, list))
  {
    assert Project(s').dirs == Moved(Project(s), Arrive(d, list)).dirs;
  }

  /** Every action of the system is a move of the fleet of its vault directories. */
  lemma ActionIsMove(s: Sys, a: Action)
    requires WorldInv(s) && Enabled(s, a)
    ensures MoveEnabled(Project(s), MoveOf(s, a)) && Project(Next(s, a)) == Moved(Project(s), MoveOf(s, a))
  {
    match a
    case Join(d, list) => JoinIsMove(s, Next(s, a), d, list);
    case Act(d, op) =>
      assert DevWorld(d, s.devs[d], s.world, s.issued);
      ActFrame(s, d, op);
      ActIsMove(s, Next(s, a), d, op);
    case _ =>
      RelayFrame(s, a);
  }

  // ---- what H4 and H6 add -------------------------------------------------------------------

  lemma TouchKeepsSound(dir: Dir, t: Touch)
    requires LocalInv(dir) && DirKeys(dir) && TouchEnabled(dir, t) && TouchKeys(t)
    requires forall k | k in dir.handles :: HandleBuilt(dir.handles[k], dir.disk.log)
    ensures LocalInv(Touching(dir, t))
    ensures forall k | k in Touching(dir, t).handles ::
              HandleBuilt(Touching(dir, t).handles[k], Touching(dir, t).disk.log)
  {
    TouchKeepsBuilt(dir, t);
    if t.Touched? {
      LocalStepKeepsInv(dir, t.h, t.op);
    }
  }

  lemma ActGrowsDisk(s: Sys, s': Sys, d: Uuid, op: DevOp)
    requires Acted(s, s', d, op) && CountersInv(s.devs[d].dir)
    ensures Grew(s.devs[d].dir.disk, s'.devs[d].dir.disk)
  {
    DirStep(s.devs[d], s.relay, d, op);
    var t := TouchOf(s.devs[d], s.relay, d, op);
    if t.Touched? {
      LocalStepGrows(s.devs[d].dir, t.h, t.op);
    }
  }

  lemma ActKeepsSound(s: Sys, s': Sys, d: Uuid, op: DevOp)
    requires KeysInv(s) && Acted(s, s', d, op) && DevWorld(d, s.devs[d], s.world, s.issued)
    ensures LocalInv(s'.devs[d].dir)
    ensures forall h | h in s'.devs[d].dir.handles :: HandleBuilt(s'.devs[d].dir.handles[h], s'.devs[d].dir.disk.log)
  {
    var dev := s.devs[d];
    assert DevKeys(dev);
    DirStep(dev, s.relay, d, op);
    TouchesWriteChains(dev, s.relay, d, op);
    TouchKeepsSound(dev.dir, TouchOf(dev, s.relay, d, op));
  }

  lemma ActKeepsPhaseWorld(s: Sys, s': Sys, d: Uuid, op: DevOp)
    requires WorldInv(s) && Acted(s, s', d, op) && s.devs[d].dir.disk.log <= s'.devs[d].dir.disk.log
    ensures PhaseWorld(s'.devs[d].dir.disk.log, s'.devs[d].phase, s'.world)
  {
    var dev := s.devs[d];
    assert DevWorld(d, dev, s.world, s.issued);
    PhaseStepWorld(dev, s.relay, d, op, s.world);
    PhaseWorldGrows(dev.dir.disk.log, s'.devs[d].phase, s.world, s'.devs[d].dir.disk.log, s'.world);
  }

  lemma ActKeepsSeals(s: Sys, s': Sys, d: Uuid, op: DevOp)
    requires WorldInv(s) && KeysInv(s) && Acted(s, s', d, op)
    ensures forall f | f in s'.world :: f.blob.key.share == f.blob.rec.shareId
  {
    if op.Local? && op.op.Append? {
      assert DevKeys(s.devs[d]);
      var me := s.devs[d].dir.handles[op.hd];
      assert ChainList(me.pending.value.shareId, me.ring[me.pending.value.shareId]);
    }
  }

  lemma PushKeepsRows(r: Relay, world: set<Frame>, es: seq<TaggedFrame>)
    requires TableOk(r) && RowsKnown(r, world) && forall t | t in es :: t.frame in world
    ensures TableOk(StoreAll(r, es)) && RowsKnown(StoreAll(r, es), world)
    ensures r.entries <= StoreAll(r, es).entries
  {
    var r' := StoreAll(r, es);
    StoreAllAppends(r, es);
    forall row | row in r'.entries ensures row.frame in world {
      var i :| 0 <= i < |r'.entries| && r'.entries[i] == row;
      if i < |r.entries| {
        assert row == r.entries[i];
      } else {
        assert NewRow(r, row, es);
      }
    }
  }

  lemma ActKeepsRows(s: Sys, s': Sys, d: Uuid, op: DevOp)
    requires WorldInv(s) && Acted(s, s', d, op)
    ensures TableOk(s'.relay) && RowsKnown(s'.relay, s.world) && s.relay.entries <= s'.relay.entries
  {
    if op.PushLog? {
      assert DevWorld(d, s.devs[d], s.world, s.issued);
      PushKeepsRows(s.relay, s.world, s.devs[d].phase.local);
    }
  }

  /** The parts of the invariant beyond the fleet's, for one device. */
  ghost predicate DevSound(dev: Dev, world: set<Frame>) {
    && LocalInv(dev.dir)
    && (forall h | h in dev.dir.handles :: HandleBuilt(dev.dir.handles[h], dev.dir.disk.log))
    && PhaseWorld(dev.dir.disk.log, dev.phase, world)
  }

  lemma AssembleWorld(s': Sys)
    requires FleetInv(Project(s')) && TableOk(s'.relay) && RowsKnown(s'.relay, s'.world)
    requires forall f | f in s'.world :: f.blob.key.share == f.blob.rec.shareId
    requires forall d | d in s'.devs :: DevSound(s'.devs[d], s'.world)
    ensures WorldInv(s')
  {
    forall d | d in s'.devs ensures DevWorld(d, s'.devs[d], s'.world, s'.issued) {
      assert VaultOk(d, Project(s').dirs[d], s'.world, s'.issued);
    }
  }

  lemma OthersStaySound(s: Sys, s': Sys, d: Uuid)
    requires forall e | e in s.devs :: DevWorld(e, s.devs[e], s.world, s.issued)
    requires OnlyDevice(s, s', d)
    ensures forall e | e in s'.devs && e != d :: DevSound(s'.devs[e], s'.world)
  {
    forall e | e in s'.devs && e != d ensures DevSound(s'.devs[e], s'.world) {
      assert DevWorld(e, s.devs[e], s.world, s.issued);
    }
  }

  lemma ActKeepsWorld(s: Sys, s': Sys, d: Uuid, op: DevOp)
    requires WorldInv(s) && KeysInv(s) && Acted(s, s', d, op) && FleetInv(Project(s'))
    ensures WorldInv(s')
  {
    assert DevWorld(d, s.devs[d], s.world, s.issued);
    ActKeepsSound(s, s', d, op);
    ActGrowsDisk(s, s', d, op);
    ActKeepsPhaseWorld(s, s', d, op);
    ActKeepsSeals(s, s', d, op);
    ActKeepsRows(s, s', d, op);
    ActedAlone(s, s', d, op);
    OthersStaySound(s, s', d);
    AssembleWorld(s');
  }

  lemma JoinKeepsWorld(s: Sys, s': Sys, d: Uuid, list: seq<Key>)
    requires WorldInv(s) && FleetInv(Project(s')) && OnlyDevice(s, s', d) && s'.devs[d] == Dev(NewDir(d, list), Idle)
    requires s'.relay == s.relay && s'.world == s.world
    ensures WorldInv(s')
  {
    OthersStaySound(s, s', d);
    assert DevSound(s'.devs[d], s'.world);
    AssembleWorld(s');
  }

  lemma RelayKeepsWorld(s: Sys, s': Sys)
    requires WorldInv(s) && s'.devs == s.devs && s'.world == s.world && s'.issued == s.issued
    requires s'.relay.entries == s.relay.entries && s.relay.lastSeq <= s'.relay.lastSeq
    ensures WorldInv(s')
  {
    assert Project(s') == Project(s);
  }

  /** Every action keeps the fleet's invariant, keys and shares matched, snapshots sound and memory readable. */
  lemma StepKeepsWorld(s: Sys, a: Action)
    requires WorldInv(s) && KeysInv(s) && Enabled(s, a)
    ensures WorldInv(Next(s, a))
  {
    WorldIsFleet(s);
    ActionIsMove(s, a);
    MoveKeepsInv(Project(s), MoveOf(s, a));
    match a
    case Join(d, list) => JoinKeepsWorld(s, Next(s, a), d, list);
    case Act(d, op) =>
      ActFrame(s, d, op);
      ActKeepsWorld(s, Next(s, a), d, op);
    case _ =>
      RelayFrame(s, a);
      RelayKeepsWorld(s, Next(s, a));
  }
}
