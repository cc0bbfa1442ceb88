/**
 Relay tags over every run: the share stored with a relay entry is the share inside its sealed
 record, although devices tag frames they cannot open with the default share. It rests on the
 companion fact that a frame its holder cannot open is already at the relay, where the first
 copy of an id stays.
 */
module ProtocolTags {
  import opened Records
  import opened Keyrings
  import opened VaultSpec
  import opened VaultRuns
  import opened RelaySpec
  import opened Protocol
  import opened ProtocolSteps
  import opened ProtocolKeys
  import opened ProtocolWorld

  ghost predicate RowsTagged(r: Relay) {
    forall row | row in r.entries :: row.share == row.frame.blob.rec.shareId
  }

  /** Its own frames a device can read; the others came from the relay. */
  ghost predicate LogTags(r: Relay, disk: Disk) {
    forall f | f in disk.log :: Opens(disk.ring, f) || Stored(r, f.id)
  }

  ghost predicate PhaseTags(r: Relay, p: Phase) {
    && (p.Pushing? ==> forall t | t in p.local :: t.share == t.frame.blob.rec.shareId || Stored(r, t.frame.id))
    && (p.Applying? ==> forall f | f in p.rest :: Stored(r, f.id))
  }

  ghost predicate DevTags(r: Relay, dev: Dev) {
    LogTags(r, dev.dir.disk) && PhaseTags(r, dev.phase)
  }

  ghost predicate TagsInv(s: Sys) {
    RowsTagged(s.relay) && forall d | d in s.devs :: DevTags(s.relay, s.devs[d])
  }

  lemma DevTagsStay(r: Relay, r': Relay, dev: Dev)
    requires DevTags(r, dev) && r.entries <= r'.entries
    ensures DevTags(r', dev)
  {
    StoredStays(r, r');
  }

  lemma TouchKeepsTags(dir: Dir, t: Touch, r: Relay)
    requires DirKeys(dir) && TouchEnabled(dir, t) && TouchKeys(t) && LogTags(r, dir.disk)
    requires t.Touched? && t.op.Apply? ==> Stored(r, t.op.frame.id)
    ensures LogTags(r, Touching(dir, t).disk)
  {
    var disk, disk' := dir.disk, Touching(dir, t).disk;
    TouchKeepsDir(dir, t);
    if t.Touched? {
      SectionBrings(dir, t.h, t.op);
    }
    forall f | f in disk'.log ensures Opens(disk'.ring, f) || Stored(r, f.id) {
      if f in disk.log {
        if Opens(disk.ring, f) {
          GrowthKeepsOpen(disk.ring, disk'.ring, f);
        }
      } else if t.op.Append? {
        var me := dir.handles[t.h];
        OwnFrameOpens(me, t.op.entry);
        GrowthKeepsOpen(me.ring, disk.ring, f);
        GrowthKeepsOpen(disk.ring, disk'.ring, f);
      }
    }
  }

  lemma PhaseStepTags(dev: Dev, r: Relay, d: Uuid, op: DevOp)
    requires DevEnabled(dev, r, d, op) && DevTags(r, dev)
    ensures PhaseTags(r, DevNext(dev, r, d, op).phase)
  {
    var p' := DevNext(dev, r, d, op).phase;
    if op.PullPast? {
      var since := dev.dir.handles[dev.phase.h].meta.cursor;
      forall f | f in p'.rest ensures Stored(r, f.id) {
        PulledFramesAreRows(r, d, since, f);
        var row :| row in r.entries && row.frame == f;
        var i :| 0 <= i < |r.entries| && r.entries[i] == row;
      }
    } else if op.ReadLog? {
      forall t | t in p'.local ensures t.share == t.frame.blob.rec.shareId || Stored(r, t.frame.id) {
        assert t.frame in dev.dir.disk.log;
      }
    }
  }

  /** A push stores only frames whose tag is right: the others it offers are stored already. */
  lemma PushKeepsTags(r: Relay, es: seq<TaggedFrame>)
    requires TableOk(r) && RowsTagged(r)
    requires forall t | t in es :: t.share == t.frame.blob.rec.shareId || Stored(r, t.frame.id)
    ensures RowsTagged(StoreAll(r, es)) && r.entries <= StoreAll(r, es).entries
  {
    StoreAllAppends(r, es);
    var r' := StoreAll(r, es);
    forall row | row in r'.entries ensures row.share == row.frame.blob.rec.shareId {
      var i :| 0 <= i < |r'.entries| && r'.entries[i] == row;
      if i < |r.entries| {
        assert row == r.entries[i];
      } else {
        assert NewRow(r, row, es);
      }
    }
  }

  lemma ActKeepsRowTags(s: Sys, s': Sys, d: Uuid, op: DevOp)
    requires TagsInv(s) && TableOk(s.relay) && Acted(s, s', d, op)
    ensures RowsTagged(s'.relay) && s.relay.entries <= s'.relay.entries
  {
    if op.PushLog? {
      assert DevTags(s.relay, s.devs[d]);
      PushKeepsTags(s.relay, s.devs[d].phase.local);
    }
  }

  lemma ActKeepsDevTags(s: Sys, s': Sys, d: Uuid, op: DevOp)
    requires TagsInv(s) && KeysInv(s) && Acted(s, s', d, op)
    ensures DevTags(s.relay, s'.devs[d])
  {
    var dev := s.devs[d];
    assert DevTags(s.relay, dev) && DevKeys(dev);
    DirStep(dev, s.relay, d, op);
    TouchesWriteChains(dev, s.relay, d, op);
    TouchKeepsTags(dev.dir, TouchOf(dev, s.relay, d, op), s.relay);
    PhaseStepTags(dev, s.relay, d, op);
  }

  lemma OthersKeepTags(s: Sys, s': Sys, d: Uuid)
    requires TagsInv(s) && OnlyDevice(s, s', d) && s.relay.entries <= s'.relay.entries
    ensures forall e | e in s'.devs && e != d :: DevTags(s'.relay, s'.devs[e])
  {
    forall e | e in s'.devs && e != d ensures DevTags(s'.relay, s'.devs[e]) {
      DevTagsStay(s.relay, s'.relay, s.devs[e]);
    }
  }

  lemma ActKeepsTags(s: Sys, s': Sys, d: Uuid, op: DevOp)
    requires TagsInv(s) && KeysInv(s) && TableOk(s.relay) && Acted(s, s', d, op)
    ensures TagsInv(s')
  {
    ActKeepsRowTags(s, s', d, op);
    ActKeepsDevTags(s, s', d, op);
    DevTagsStay(s.relay, s'.relay, s'.devs[d]);
    ActedAlone(s, s', d, op);
    OthersKeepTags(s, s', d);
  }

  /** Every action keeps relay tags right. */
  lemma StepKeepsTags(s: Sys, a: Action)
    requires TagsInv(s) && KeysInv(s) && TableOk(s.relay) && Enabled(s, a)
    ensures TagsInv(Next(s, a))
  {
    match a
    case Join(d, list) =>
    case Act(d, op) =>
      ActFrame(s, d, op);
      ActKeepsTags(s, Next(s, a), d, op);
    case _ =>
      RelayFrame(s, a);
      forall d | d in s.devs ensures DevTags(Next(s, a).relay, s.devs[d]) {
        DevTagsStay(s.relay, Next(s, a).relay, s.devs[d]);
      }
  }

  /**
   Without H6: a push through a handle with a stale keyring tags by what that keyring opens. A frame
   of a named share that it does not open, and that is not stored yet, is filed under the default
   share for good, where every device may pull it and no member of the share is looked for.
   */
  lemma StaleKeyringMisfiles(r: Relay, ring: Ring, log: seq<Frame>, f: Frame)
    requires TableOk(r) && f in log && forall g | g in log && g.id == f.id :: g == f
    requires !Opens(ring, f) && f.blob.rec.shareId != NIL && !Stored(r, f.id)
    ensures exists row :: row in StoreAll(r, TaggedLog(ring, log)).entries && row.frame == f && row.share == NIL
    ensures !RowsTagged(StoreAll(r, TaggedLog(ring, log)))
  {
    var local := TaggedLog(ring, log);
    var r' := StoreAll(r, local);
    StoreAllAppends(r, local);
    var k :| 0 <= k < |log| && log[k] == f;
    assert local[k] in local;
    var i :| 0 <= i < |r'.entries| && r'.entries[i].frame.id == f.id;
    var row := r'.entries[i];
    assert NewRow(r, row, local);
    var j :| 0 <= j < |local| && local[j] == TaggedFrame(row.frame, row.share);
    assert log[j] == row.frame;
    assert row in r'.entries;
  }
}
