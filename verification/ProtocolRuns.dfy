/**
 Runs of the whole system from the empty one, and what holds over every run: the theorems that
 span devices and relay. Each follows from one invariant, which every action keeps.
 */
module ProtocolRuns {
  import opened Records
  import opened Merging
  import opened Keyrings
  import opened VaultSpec
  import VaultRuns
  import opened Fleet
  import opened RelaySpec
  import opened Protocol
  import opened ProtocolSteps
  import opened ProtocolKeys
  import opened ProtocolWorld
  import opened ProtocolTags
  import opened ProtocolRights
  import opened ProtocolCursors

  lemma StepKeepsInv(s: Sys, a: Action)
    requires Inv(s) && Enabled(s, a)
    ensures Inv(Next(s, a)) && RingsGrow(s, Next(s, a))
  {
    StepKeepsKeys(s, a);
    StepKeepsWorld(s, a);
    StepKeepsTags(s, a);
    StepKeepsRights(s, a);
  }

  ghost predicate StepAt(ss: seq<Sys>, acts: seq<Action>, i: nat)
    requires i < |acts| < |ss|
  {
    Enabled(ss[i], acts[i]) && ss[i + 1] == Next(ss[i], acts[i])
  }

  ghost predicate Run(ss: seq<Sys>, acts: seq<Action>) {
    && |ss| == |acts| + 1
    && ss[0] == START
    && (forall i: nat | i < |acts| :: StepAt(ss, acts, i))
  }

  lemma ExtendRun(ss: seq<Sys>, acts: seq<Action>, a: Action)
    requires Run(ss, acts) && Enabled(ss[|acts|], a)
    ensures Run(ss + [Next(ss[|acts|], a)], acts + [a])
  {
    var ss', acts' := ss + [Next(ss[|acts|], a)], acts + [a];
    forall i: nat | i < |acts'| ensures StepAt(ss', acts', i) {
      if i < |acts| {
        assert StepAt(ss, acts, i);
      }
    }
  }

  lemma {:induction false} RunKeepsInv(ss: seq<Sys>, acts: seq<Action>, n: nat)
    requires Run(ss, acts) && n < |ss|
    ensures Inv(ss[n])
  {
    if n > 0 {
      RunKeepsInv(ss, acts, n - 1);
      assert StepAt(ss, acts, n - 1);
      StepKeepsInv(ss[n - 1], acts[n - 1]);
    }
  }

  /** A run that is careful of one device: H2 and H3 hold for its rounds and for grants to it. */
  ghost predicate CarefulRun(ss: seq<Sys>, acts: seq<Action>, d: Uuid) {
    && Run(ss, acts)
    && (forall i: nat {:trigger Careful(ss[i], acts[i], d)} | i < |acts| :: Careful(ss[i], acts[i], d))
  }

  lemma {:induction false} RunKeepsCursors(ss: seq<Sys>, acts: seq<Action>, n: nat, d: Uuid)
    requires CarefulRun(ss, acts, d) && n < |ss|
    ensures CursorsInv(ss[n], d)
  {
    if n > 0 {
      RunKeepsCursors(ss, acts, n - 1, d);
      RunKeepsInv(ss, acts, n - 1);
      assert StepAt(ss, acts, n - 1) && Careful(ss[n - 1], acts[n - 1], d);
      StepKeepsCursors(ss[n - 1], acts[n - 1], d);
    }
  }

  // ---- growth ---------------------------------------------------------------------------

  ghost predicate DiskGrew(disk: Disk, disk': Disk) {
    && RingLe(disk.ring, disk'.ring)
    && disk.log <= disk'.log
    && disk.meta.lamport <= disk'.meta.lamport
  }

  /** What never shrinks: keyrings, logs and counters of devices, frames, records and relay entries. */
  ghost predicate SysGrew(s: Sys, s': Sys) {
    && (forall d | d in s.devs :: d in s'.devs && DiskGrew(s.devs[d].dir.disk, s'.devs[d].dir.disk))
    && s.world <= s'.world && s.issued <= s'.issued
    && s.relay.entries <= s'.relay.entries
    && BooksGrow(s, s')
  }

  lemma ActGrows(s: Sys, s': Sys, d: Uuid, op: DevOp)
    requires Inv(s) && Acted(s, s', d, op)
    ensures s.devs[d].dir.disk.log <= s'.devs[d].dir.disk.log
    ensures s.devs[d].dir.disk.meta.lamport <= s'.devs[d].dir.disk.meta.lamport
    ensures s.relay.entries <= s'.relay.entries && BooksGrow(s, s') && OnlyDevice(s, s', d)
  {
    assert DevWorld(d, s.devs[d], s.world, s.issued);
    ActGrowsDisk(s, s', d, op);
    ActKeepsRows(s, s', d, op);
    ActGrowsBooks(s, s', d, op);
    ActedAlone(s, s', d, op);
  }

  lemma ActGrowsSys(s: Sys, s': Sys, d: Uuid, op: DevOp)
    requires Inv(s) && Acted(s, s', d, op) && RingsGrow(s, s')
    ensures SysGrew(s, s')
  {
    ActGrows(s, s', d, op);
  }

  lemma JoinGrows(s: Sys, d: Uuid, list: seq<Key>)
    requires Enabled(s, Join(d, list)) && RingsGrow(s, Next(s, Join(d, list)))
    ensures SysGrew(s, Next(s, Join(d, list)))
  {
  }

  lemma StepGrows(s: Sys, a: Action)
    requires Inv(s) && Enabled(s, a) && RingsGrow(s, Next(s, a))
    ensures SysGrew(s, Next(s, a))
  {
    match a
    case Join(d, list) => JoinGrows(s, d, list);
    case Act(d, op) =>
      ActFrame(s, d, op);
      ActGrowsSys(s, Next(s, a), d, op);
    case _ => RelayFrame(s, a);
  }

  lemma DiskGrewThen(a: Disk, b: Disk, c: Disk)
    requires DiskGrew(a, b) && DiskGrew(b, c)
    ensures DiskGrew(a, c)
  {
    RingLeTransitive(a.ring, b.ring, c.ring);
  }

  lemma GrewThen(a: Sys, b: Sys, c: Sys)
    requires SysGrew(a, b) && SysGrew(b, c)
    ensures SysGrew(a, c)
  {
    forall d | d in a.devs ensures d in c.devs && DiskGrew(a.devs[d].dir.disk, c.devs[d].dir.disk) {
      DiskGrewThen(a.devs[d].dir.disk, b.devs[d].dir.disk, c.devs[d].dir.disk);
    }
  }

  lemma RunStepGrows(ss: seq<Sys>, acts: seq<Action>, n: nat)
    requires Run(ss, acts) && n < |acts|
    ensures SysGrew(ss[n], ss[n + 1])
  {
    RunKeepsInv(ss, acts, n);
    assert StepAt(ss, acts, n);
    StepKeepsInv(ss[n], acts[n]);
    StepGrows(ss[n], acts[n]);
  }

  /** Over every run nothing that was written, sealed, stored or granted is lost. */
  lemma {:induction false} RunGrows(ss: seq<Sys>, acts: seq<Action>, m: nat, n: nat)
    requires Run(ss, acts) && m <= n < |ss|
    ensures SysGrew(ss[m], ss[n])
  {
    if m < n {
      RunGrows(ss, acts, m, n - 1);
      RunStepGrows(ss, acts, n - 1);
      GrewThen(ss[m], ss[n - 1], ss[n]);
    }
  }

  /** No frame a device could open ever becomes unopenable for it. */
  lemma OpenableForever(ss: seq<Sys>, acts: seq<Action>, m: nat, n: nat, d: Uuid, f: Frame)
    requires Run(ss, acts) && m <= n < |ss| && d in ss[m].devs && Opens(ss[m].devs[d].dir.disk.ring, f)
    ensures d in ss[n].devs && Opens(ss[n].devs[d].dir.disk.ring, f)
  {
    RunGrows(ss, acts, m, n);
    GrowthKeepsOpen(ss[m].devs[d].dir.disk.ring, ss[n].devs[d].dir.disk.ring, f);
  }

  // ---- the fleet ---------------------------------------------------------------------------

  /**
   The vault directories of a system go through a run of the fleet, step by step; so all that holds of
   fleets (clocks, coherence, and under H5 causality) holds of systems.
   */
  lemma SystemIsFleet(ss: seq<Sys>, acts: seq<Action>, ws: seq<World>, ms: seq<Move>)
    requires Run(ss, acts) && |ws| == |ss| && |ms| == |acts|
    requires forall i | 0 <= i < |ss| :: ws[i] == Project(ss[i])
    requires forall i: nat | i < |acts| :: StepAt(ss, acts, i) && ms[i] == MoveOf(ss[i], acts[i])
    ensures FleetRun(ws, ms)
  {
    assert ws[0] == NOBODY;
    forall i: nat | i < |ms| ensures MoveAt(ws, ms, i) {
      RunKeepsInv(ss, acts, i);
      assert StepAt(ss, acts, i);
      ActionIsMove(ss[i], acts[i]);
    }
  }

  lemma ReadableIsCoherent(s: Sys, rs: set<Record>)
    requires WorldInv(s) && rs <= s.issued
    ensures CoherentSet(rs)
  {
    IssuedAreCoherent(Project(s).dirs, s.issued, rs);
  }

  // ---- states ---------------------------------------------------------------------------

  /** `d` is a device of the system and its directory can be replayed. */
  lemma DirAt(ss: seq<Sys>, acts: seq<Action>, n: nat, d: Uuid)
    requires Run(ss, acts) && n < |ss| && d in ss[n].devs
    ensures DirWorld(d, ss[n].devs[d].dir, ss[n].world, ss[n].issued) && DevKeys(ss[n].devs[d])
  {
    RunKeepsInv(ss, acts, n);
    assert DevWorld(d, ss[n].devs[d], ss[n].world, ss[n].issued);
  }

  /** On every run, opening a vault from its snapshot and tail gives the replay of its whole log. */
  lemma OpenIsReplay(ss: seq<Sys>, acts: seq<Action>, n: nat, d: Uuid)
    requires Run(ss, acts) && n < |ss| && d in ss[n].devs
    ensures var disk := ss[n].devs[d].dir.disk;
            Opened(disk).state == Replay(disk.ring, disk.log)
  {
    DirAt(ss, acts, n, d);
    VaultRuns.SnapshotRefinesReplay(ss[n].devs[d].dir, ss[n].devs[d].dir.disk.ring);
  }

  lemma PartBelowReplay(part: Record, some: set<Record>, all: set<Record>, full: State)
    requires BuiltFrom(part, WithId(some, part.id)) && some <= all && CoherentSet(all) && StateOf(full, all)
    ensures part.id in full && Le(part, full[part.id])
  {
    var same := WithId(all, part.id);
    BuiltFromMore(part, WithId(some, part.id), same);
    assert HasKind(same, part.kind);
    var r :| r in same && r.kind == part.kind;
    assert r in all;
    BuiltIsBelowJoin(part, full[part.id], same);
  }

  lemma DirMemory(dir: VaultRuns.Dir, h: nat, id: Uuid)
    requires h in dir.handles && HandleBuilt(dir.handles[h], dir.disk.log) && id in dir.handles[h].state
    requires RingLe(dir.handles[h].ring, dir.disk.ring) && CoherentSet(Readable(dir.disk.ring, dir.disk.log))
    ensures var full := Replay(dir.disk.ring, dir.disk.log);
            id in full && Le(dir.handles[h].state[id], full[id])
  {
    var me, ring, log := dir.handles[h], dir.disk.ring, dir.disk.log;
    ReplayIsJoin(ring, log);
    ReadableGrows(me.ring, log, ring, log);
    PartBelowReplay(me.state[id], Readable(me.ring, log), Readable(ring, log), Replay(ring, log));
  }

  /** On every run, what a handle has in memory is below the replay of the log, in the order of the merge. */
  lemma MemoryIsBelowReplay(ss: seq<Sys>, acts: seq<Action>, n: nat, d: Uuid, h: nat, id: Uuid)
    requires Run(ss, acts) && n < |ss| && d in ss[n].devs && h in ss[n].devs[d].dir.handles
    requires id in ss[n].devs[d].dir.handles[h].state
    ensures var dir := ss[n].devs[d].dir;
            var full := Replay(dir.disk.ring, dir.disk.log);
            id in full && Le(dir.handles[h].state[id], full[id])
  {
    var dir := ss[n].devs[d].dir;
    DirAt(ss, acts, n, d);
    RunKeepsInv(ss, acts, n);
    ReadableIsIssued(dir.disk.ring, dir.disk.log, ss[n].world, ss[n].issued);
    ReadableIsCoherent(ss[n], Readable(dir.disk.ring, dir.disk.log));
    DirMemory(dir, h, id);
  }

  /** A record in a handle's memory is of a share the handle has keys for. */
  lemma MemoryIsHeld(s: Sys, d: Uuid, h: nat, id: Uuid)
    requires WorldInv(s) && KeysInv(s) && d in s.devs && h in s.devs[d].dir.handles
    requires id in s.devs[d].dir.handles[h].state
    ensures ListOf(s.devs[d].dir.handles[h].ring, s.devs[d].dir.handles[h].state[id].shareId) != []
  {
    var dir := s.devs[d].dir;
    var me, rec := dir.handles[h], dir.handles[h].state[id];
    assert DevWorld(d, s.devs[d], s.world, s.issued) && DevKeys(s.devs[d]);
    assert HandleBuilt(me, dir.disk.log);
    assert HasStamp(WithId(Readable(me.ring, dir.disk.log), id), rec.clock, rec.deviceId, rec.shareId);
    var f :| f in dir.disk.log && Opens(me.ring, f) && f.blob.rec.shareId == rec.shareId;
    KeyIsOfItsList(me.ring, f.blob.key);
  }

  /** On every run a record that got its clock can be appended: its share is held. */
  lemma DraftsCanBeAppended(ss: seq<Sys>, acts: seq<Action>, n: nat, d: Uuid, h: nat, i: Intent, now: nat)
    requires Run(ss, acts) && n < |ss| && d in ss[n].devs && h in ss[n].devs[d].dir.handles
    requires CanDraft(ss[n].devs[d].dir.handles[h], i)
    ensures CanAppend(Drafted(VaultRuns.ViewOf(ss[n].devs[d].dir, h), i, now).me)
  {
    DirAt(ss, acts, n, d);
    RunKeepsInv(ss, acts, n);
    var me := ss[n].devs[d].dir.handles[h];
    if i.AddIntent? {
      assert ChainList(i.share, me.ring[i.share]);
    } else {
      MemoryIsHeld(ss[n], d, h, i.id);
    }
  }

  /** A frame in the log that the handle opens, and whose record shows in its memory. */
  ghost predicate Seen(dir: VaultRuns.Dir, h: nat, f: Frame) {
    && h in dir.handles && f in dir.disk.log && Opens(dir.handles[h].ring, f)
    && ShowsRecord(dir.handles[h].state, f.blob.rec)
  }

  /** The handle takes in the frame and opens it, or appends it. */
  ghost predicate TakesIn(dir: VaultRuns.Dir, t: Touch, h: nat, f: Frame) {
    && t.Touched? && t.h == h && h in dir.handles
    && ((t.op.Apply? && t.op.frame == f && Opens(dir.handles[h].ring, f))
        || (t.op.Append? && CanAppend(dir.handles[h]) && f == SealedFrame(dir.handles[h], t.op.entry)))
  }

  lemma TakenIsSeen(dir: VaultRuns.Dir, t: Touch, h: nat, f: Frame)
    requires TouchEnabled(dir, t) && TakesIn(dir, t, h, f) && Keyed(dir.handles[h].state)
    ensures Seen(Touching(dir, t), h, f)
  {
    VaultRuns.SectionBrings(dir, h, t.op);
    VaultRuns.LocalFrame(dir, h, t.op);
    MergeShows(dir.handles[h].state, f.blob.rec);
    if t.op.Append? {
      OwnFrameOpens(dir.handles[h], t.op.entry);
    }
    assert Touching(dir, t).disk.log[|dir.disk.log|] == f;
  }

  /** No section of any handle but the handle's closing hides what was seen: reloads and compactions replay it. */
  lemma TouchKeepsSeen(dir: VaultRuns.Dir, t: Touch, h: nat, f: Frame)
    requires VaultRuns.LocalInv(dir) && DirKeys(dir) && TouchEnabled(dir, t) && TouchKeys(t)
    requires Seen(dir, h, f) && Keyed(dir.handles[h].state)
    requires t.Touched? && t.op.Close? ==> t.h != h
    ensures Seen(Touching(dir, t), h, f)
  {
    if t.Touched? {
      VaultRuns.SectionBrings(dir, t.h, t.op);
      VaultRuns.LocalFrame(dir, t.h, t.op);
      if t.h == h {
        OwnTouchKeepsSeen(dir, t, f);
      }
    }
  }

  lemma OwnTouchKeepsSeen(dir: VaultRuns.Dir, t: Touch, f: Frame)
    requires VaultRuns.LocalInv(dir) && DirKeys(dir) && TouchEnabled(dir, t) && TouchKeys(t)
    requires t.Touched? && !t.op.Close? && Seen(dir, t.h, f) && Keyed(dir.handles[t.h].state)
    ensures Opens(Touching(dir, t).handles[t.h].ring, f)
    ensures ShowsRecord(Touching(dir, t).handles[t.h].state, f.blob.rec)
  {
    var me := dir.handles[t.h];
    if t.op.Grow? {
      SectionGrowsRing(dir, t);
      GrowthKeepsOpen(me.ring, Touching(dir, t).handles[t.h].ring, f);
    } else if t.op.Reload? || t.op.Compact? {
      VaultRuns.SnapshotRefinesReplay(dir, me.ring);
      ReplayShows(me.ring, dir.disk.log, f);
    } else if t.op.Append? {
      MergeShows(me.state, me.pending.value);
    } else if t.op.Apply? {
      AppliedIsShown(VaultRuns.ViewOf(dir, t.h), t.op.frame);
    }
  }

  /** The action is the device's own and closes the handle. */
  predicate Closes(a: Action, d: Uuid, h: nat) {
    a == Act(d, Local(h, VaultRuns.Close))
  }

  lemma DevKeepsSeen(dev: Dev, r: Relay, d: Uuid, op: DevOp, h: nat, f: Frame)
    requires DevKeys(dev) && RelayKeys(r) && DevEnabled(dev, r, d, op) && VaultRuns.LocalInv(dev.dir)
    requires Seen(dev.dir, h, f) && Keyed(dev.dir.handles[h].state) && op != Local(h, VaultRuns.Close)
    ensures Seen(DevNext(dev, r, d, op).dir, h, f)
  {
    DirStep(dev, r, d, op);
    TouchesWriteChains(dev, r, d, op);
    TouchKeepsSeen(dev.dir, TouchOf(dev, r, d, op), h, f);
  }

  lemma OwnActKeepsSeen(s: Sys, d: Uuid, op: DevOp, h: nat, f: Frame)
    requires WorldInv(s) && KeysInv(s) && d in s.devs && DevEnabled(s.devs[d], s.relay, d, op)
    requires Seen(s.devs[d].dir, h, f) && op != Local(h, VaultRuns.Close)
    ensures Seen(DevNext(s.devs[d], s.relay, d, op).dir, h, f)
  {
    MemoryIsKeyed(s, d, h);
    DevKeepsSeen(s.devs[d], s.relay, d, op, h, f);
  }

  lemma StepKeepsSeen(s: Sys, a: Action, d: Uuid, h: nat, f: Frame)
    requires Inv(s) && Enabled(s, a) && d in s.devs && Seen(s.devs[d].dir, h, f) && !Closes(a, d, h)
    ensures d in Next(s, a).devs && Seen(Next(s, a).devs[d].dir, h, f)
  {
    if a.Act? && a.d == d {
      ActFrame(s, d, a.op);
      OwnActKeepsSeen(s, d, a.op, h, f);
    } else {
      OtherDevicesStay(s, a, d);
    }
  }

  lemma MemoryIsKeyed(s: Sys, d: Uuid, h: nat)
    requires WorldInv(s) && d in s.devs && h in s.devs[d].dir.handles
    ensures Keyed(s.devs[d].dir.handles[h].state) && VaultRuns.LocalInv(s.devs[d].dir)
  {
    assert DevWorld(d, s.devs[d], s.world, s.issued);
    assert HandleBuilt(s.devs[d].dir.handles[h], s.devs[d].dir.disk.log);
  }

  lemma {:induction false} SeenStays(ss: seq<Sys>, acts: seq<Action>, i: nat, n: nat, d: Uuid, h: nat, f: Frame)
    requires Run(ss, acts) && i <= n < |ss| && d in ss[i].devs && Seen(ss[i].devs[d].dir, h, f)
    requires forall k: nat {:trigger acts[k]} | i <= k < n :: !Closes(acts[k], d, h)
    ensures d in ss[n].devs && Seen(ss[n].devs[d].dir, h, f)
  {
    if i < n {
      SeenStays(ss, acts, i, n - 1, d, h, f);
      RunKeepsInv(ss, acts, n - 1);
      assert StepAt(ss, acts, n - 1);
      assert !Closes(acts[n - 1], d, h);
      StepKeepsSeen(ss[n - 1], acts[n - 1], d, h, f);
    }
  }

  /** The device's action takes in the frame through the handle. */
  ghost predicate ActTakes(s: Sys, a: Action, d: Uuid, h: nat, f: Frame) {
    && a.Act? && a.d == d && d in s.devs && DevEnabled(s.devs[d], s.relay, d, a.op)
    && TakesIn(s.devs[d].dir, TouchOf(s.devs[d], s.relay, d, a.op), h, f)
  }

  /**
   On every run, whatever a handle took in, pulled and opened or appended itself, shows in its memory
   at every later point until the handle is closed, through reloads and compactions too.
   */
  lemma TakenStaysShown(ss: seq<Sys>, acts: seq<Action>, i: nat, n: nat, d: Uuid, h: nat, f: Frame)
    requires Run(ss, acts) && i < n < |ss| && ActTakes(ss[i], acts[i], d, h, f)
    requires forall k: nat {:trigger acts[k]} | i < k < n :: !Closes(acts[k], d, h)
    ensures d in ss[n].devs && h in ss[n].devs[d].dir.handles
    ensures ShowsRecord(ss[n].devs[d].dir.handles[h].state, f.blob.rec)
  {
    RunKeepsInv(ss, acts, i);
    var dev := ss[i].devs[d];
    MemoryIsKeyed(ss[i], d, h);
    assert StepAt(ss, acts, i);
    ActFrame(ss[i], d, acts[i].op);
    DirStep(dev, ss[i].relay, d, acts[i].op);
    TakenIsSeen(dev.dir, TouchOf(dev, ss[i].relay, d, acts[i].op), h, f);
    SeenStays(ss, acts, i + 1, n, d, h, f);
  }

  // ---- routing --------------------------------------------------------------------------

  /** On every run, the share the relay files an entry under is the share inside its sealed record. */
  lemma RelayTagsAreRight(ss: seq<Sys>, acts: seq<Action>, n: nat, row: EntryRow)
    requires Run(ss, acts) && n < |ss| && row in ss[n].relay.entries
    ensures row.share == row.frame.blob.rec.shareId == row.frame.blob.key.share
  {
    RunKeepsInv(ss, acts, n);
  }

  /** A frame that its holder cannot open is at the relay already. */
  lemma UnreadableIsStored(ss: seq<Sys>, acts: seq<Action>, n: nat, d: Uuid, f: Frame)
    requires Run(ss, acts) && n < |ss| && d in ss[n].devs && f in ss[n].devs[d].dir.disk.log
    ensures Opens(ss[n].devs[d].dir.disk.ring, f) || Stored(ss[n].relay, f.id)
  {
    RunKeepsInv(ss, acts, n);
    assert DevTags(ss[n].relay, ss[n].devs[d]);
  }

  lemma StateHasRight(s: Sys, d: Uuid, h: nat, id: Uuid)
    requires Inv(s) && d in s.devs && h in s.devs[d].dir.handles && id in s.devs[d].dir.handles[h].state
    ensures Right(s, d, s.devs[d].dir.handles[h].state[id].shareId)
  {
    var dir := s.devs[d].dir;
    assert DevWorld(d, s.devs[d], s.world, s.issued) && DevRights(s, d, s.devs[d]);
    var rs := Readable(dir.handles[h].ring, dir.disk.log);
    var rec := dir.handles[h].state[id];
    assert HandleBuilt(dir.handles[h], dir.disk.log);
    assert HasStamp(WithId(rs, id), rec.clock, rec.deviceId, rec.shareId);
  }

  /**
   On every run, a device that neither created a named share nor ever had a membership row for it
   has no key of it, no entry of it in its log and no record of it in any handle's memory.
   */
  lemma Confinement(ss: seq<Sys>, acts: seq<Action>, n: nat, d: Uuid, share: Uuid)
    requires Run(ss, acts) && n < |ss| && d in ss[n].devs && !Right(ss[n], d, share)
    ensures share !in ss[n].devs[d].dir.disk.ring
    ensures forall f | f in ss[n].devs[d].dir.disk.log :: f.blob.rec.shareId != share
    ensures forall h, id | h in ss[n].devs[d].dir.handles && id in ss[n].devs[d].dir.handles[h].state ::
              ss[n].devs[d].dir.handles[h].state[id].shareId != share
  {
    RunKeepsInv(ss, acts, n);
    assert DevRights(ss[n], d, ss[n].devs[d]);
    forall h, id | h in ss[n].devs[d].dir.handles && id in ss[n].devs[d].dir.handles[h].state
      ensures ss[n].devs[d].dir.handles[h].state[id].shareId != share
    {
      StateHasRight(ss[n], d, h, id);
    }
  }

  /**
   On every run that is careful of the device, each relay entry at or below its cursor (on disk or in
   any handle), in the default share or in a share it holds and belongs to, is in its log, unless
   the device gained the share in a round that has not finished yet.
   */
  lemma CursorIsComplete(ss: seq<Sys>, acts: seq<Action>, n: nat, d: Uuid, c: nat, row: EntryRow)
    requires CarefulRun(ss, acts, d) && n < |ss| && d in ss[n].devs && HasCursor(ss[n].devs[d].dir, c)
    requires row in ss[n].relay.entries && row.seqno <= c
    requires Owed(ss[n].relay, d, ss[n].devs[d], row) && Settled(ss[n].devs[d].phase, row)
    ensures row.frame in ss[n].devs[d].dir.disk.log
  {
    RunKeepsCursors(ss, acts, n, d);
    assert Complete(ss[n].relay, d, ss[n].devs[d], c);
  }

  // ---- deletion --------------------------------------------------------------------------

  /** A readable tombstone above all field clocks its reader can see deletes the record in the replay. */
  lemma ReplayDeletes(ring: Ring, log: seq<Frame>, f: Frame)
    requires f in log && Opens(ring, f) && f.blob.rec.deletedAt.Some?
    requires AboveAllFields(WithId(Readable(ring, log), f.blob.rec.id), f.blob.rec.deletedAt.value)
    ensures f.blob.rec.id in Replay(ring, log) && IsDeleted(Replay(ring, log)[f.blob.rec.id])
  {
    ReplayIsJoin(ring, log);
    var tomb, all := f.blob.rec, Readable(ring, log);
    assert tomb in all && tomb in WithId(all, tomb.id);
    assert HasTombstone(WithId(all, tomb.id), tomb.deletedAt.value);
    DeletedIff(Replay(ring, log)[tomb.id], WithId(all, tomb.id));
  }

  /** A handle that can open fewer frames sees fewer fields. */
  lemma FewerFields(ring: Ring, more: Ring, log: seq<Frame>, id: Uuid, c: Clock)
    requires RingLe(ring, more) && AboveAllFields(WithId(Readable(more, log), id), c)
    ensures AboveAllFields(WithId(Readable(ring, log), id), c)
  {
    ReadableGrows(ring, log, more, log);
  }

  /**
   Once a tombstone is in a device's log and readable, then at every later point of the run at which
   it is still above every field clock the device can read of the record, the record is deleted:
   after an open through the snapshot, after a reload, and after a compaction and an open from it,
   whatever was pulled, replayed or compacted in between.
   */
  lemma TombstoneStays(ss: seq<Sys>, acts: seq<Action>, m: nat, n: nat, d: Uuid, f: Frame)
    requires Run(ss, acts) && m <= n < |ss| && d in ss[m].devs && d in ss[n].devs
    requires f in ss[m].devs[d].dir.disk.log && Opens(ss[m].devs[d].dir.disk.ring, f) && f.blob.rec.deletedAt.Some?
    requires var disk := ss[n].devs[d].dir.disk;
             AboveAllFields(WithId(Readable(disk.ring, disk.log), f.blob.rec.id), f.blob.rec.deletedAt.value)
    ensures var dir, id := ss[n].devs[d].dir, f.blob.rec.id;
            && id in Opened(dir.disk).state && IsDeleted(Opened(dir.disk).state[id])
            && forall h | h in dir.handles && Opens(dir.handles[h].ring, f) ::
                 && ShowsDeleted(Reloaded(VaultRuns.ViewOf(dir, h)).me.state, id)
                 && ShowsDeleted(Compacted(VaultRuns.ViewOf(dir, h)).me.state, id)
                 && (dir.handles[h].ring == dir.disk.ring ==>
                       ShowsDeleted(Opened(Compacted(VaultRuns.ViewOf(dir, h)).disk).state, id))
  {
    OpenableForever(ss, acts, m, n, d, f);
    RunGrows(ss, acts, m, n);
    DirAt(ss, acts, n, d);
    var dir, id := ss[n].devs[d].dir, f.blob.rec.id;
    OpenIsReplay(ss, acts, n, d);
    ReplayDeletes(dir.disk.ring, dir.disk.log, f);
    forall h | h in dir.handles && Opens(dir.handles[h].ring, f)
      ensures ShowsDeleted(Reloaded(VaultRuns.ViewOf(dir, h)).me.state, id)
      ensures ShowsDeleted(Compacted(VaultRuns.ViewOf(dir, h)).me.state, id)
      ensures dir.handles[h].ring == dir.disk.ring ==>
                ShowsDeleted(Opened(Compacted(VaultRuns.ViewOf(dir, h)).disk).state, id)
    {
      HandleShowsDeleted(dir, h, f);
    }
  }

  predicate ShowsDeleted(state: State, id: Uuid) {
    id in state && IsDeleted(state[id])
  }

  lemma HandleShowsDeleted(dir: VaultRuns.Dir, h: nat, f: Frame)
    requires VaultRuns.LocalInv(dir) && h in dir.handles && RingLe(dir.handles[h].ring, dir.disk.ring)
    requires f in dir.disk.log && Opens(dir.handles[h].ring, f) && f.blob.rec.deletedAt.Some?
    requires AboveAllFields(WithId(Readable(dir.disk.ring, dir.disk.log), f.blob.rec.id), f.blob.rec.deletedAt.value)
    ensures var v, id := VaultRuns.ViewOf(dir, h), f.blob.rec.id;
            && ShowsDeleted(Reloaded(v).me.state, id) && ShowsDeleted(Compacted(v).me.state, id)
            && (dir.handles[h].ring == dir.disk.ring ==> ShowsDeleted(Opened(Compacted(v).disk).state, id))
  {
    var me := dir.handles[h];
    FewerFields(me.ring, dir.disk.ring, dir.disk.log, f.blob.rec.id, f.blob.rec.deletedAt.value);
    ReplayDeletes(me.ring, dir.disk.log, f);
    VaultRuns.SnapshotRefinesReplay(dir, me.ring);
    if me.ring == dir.disk.ring {
      CompactedOpens(dir, h);
    }
  }

  /** Opening after a compaction gives the replay the compaction made. */
  lemma CompactedOpens(dir: VaultRuns.Dir, h: nat)
    requires VaultRuns.LocalInv(dir) && h in dir.handles && dir.handles[h].ring == dir.disk.ring
    ensures Opened(Compacted(VaultRuns.ViewOf(dir, h)).disk).state == Replay(dir.disk.ring, dir.disk.log)
  {
    var disk := Compacted(VaultRuns.ViewOf(dir, h)).disk;
    VaultRuns.SnapshotRefinesReplay(dir, dir.disk.ring);
    if disk.snapshot != dir.disk.snapshot {
      assert disk.log[|disk.log|..] == [];
    }
  }
}
