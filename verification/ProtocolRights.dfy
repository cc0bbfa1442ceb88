/**
 Who can have what, over every run: a device holds keys, log entries and records of a named
 share only if it created the share or had a membership row for it.
 */
module ProtocolRights {
  import opened Records
  import opened Keyrings
  import opened VaultSpec
  import opened VaultRuns
  import opened RelaySpec
  import opened Protocol
  import opened ProtocolSteps
  import opened ProtocolKeys
  import opened ProtocolWorld
  import opened ProtocolTags

  /** The device created the share or had a membership row for it. */
  ghost predicate Right(s: Sys, d: Uuid, share: Uuid) {
    share == NIL || (share in s.owner && s.owner[share] == d) || (share, d) in s.belonged
  }

  ghost predicate Minted(s: Sys, share: Uuid) {
    share == NIL || share in s.minted
  }

  ghost predicate RingRights(s: Sys, d: Uuid, ring: Ring) {
    forall share | share in ring :: Minted(s, share) && Right(s, d, share)
  }

  ghost predicate LogRights(s: Sys, d: Uuid, log: seq<Frame>) {
    forall f | f in log :: Right(s, d, f.blob.rec.shareId)
  }

  ghost predicate PhaseRights(s: Sys, d: Uuid, p: Phase) {
    && (p.Healing? ==> forall o | o in p.todo :: (o.share, d) in s.belonged)
    && (p.Applying? ==> forall f | f in p.rest :: Right(s, d, f.blob.rec.shareId))
  }

  ghost predicate DevRights(s: Sys, d: Uuid, dev: Dev) {
    && RingRights(s, d, dev.dir.disk.ring)
    && LogRights(s, d, dev.dir.disk.log)
    && PhaseRights(s, d, dev.phase)
  }

  /** Until its first grant, all frames of a named share are in its creator's log. */
  ghost predicate FrameOwned(s: Sys, f: Frame) {
    var share := f.blob.key.share;
    && Minted(s, share)
    && (share != NIL && share !in s.granted ==>
          share in s.owner && s.owner[share] in s.devs && f in s.devs[s.owner[share]].dir.disk.log)
  }

  ghost predicate BooksOk(s: Sys) {
    && (forall b | b in s.belonged :: b.0 != NIL && b.0 in s.granted && b.0 in s.minted)
    && s.relay.members.Keys <= s.belonged
    && s.owner.Keys <= s.minted.Keys
  }

  ghost predicate RightsInv(s: Sys) {
    && BooksOk(s)
    && (forall f | f in s.world :: FrameOwned(s, f))
    && (forall d | d in s.devs :: DevRights(s, d, s.devs[d]))
  }

  /** Rights are never taken back in the books, and a creator stays the creator. */
  ghost predicate BooksGrow(s: Sys, s': Sys) {
    && s.belonged <= s'.belonged && s.granted <= s'.granted
    && s.minted.Keys <= s'.minted.Keys
    && (forall share | share in s.owner :: share in s'.owner && s'.owner[share] == s.owner[share])
  }

  lemma DevRightsStay(s: Sys, s': Sys, d: Uuid, dev: Dev)
    requires DevRights(s, d, dev) && BooksGrow(s, s')
    ensures DevRights(s', d, dev)
  {
    assert forall share | Right(s, d, share) :: Right(s', d, share);
  }

  ghost predicate LogsGrow(s: Sys, s': Sys) {
    forall d | d in s.devs :: d in s'.devs && s.devs[d].dir.disk.log <= s'.devs[d].dir.disk.log
  }

  lemma FrameStaysOwned(s: Sys, s': Sys, f: Frame)
    requires FrameOwned(s, f) && BooksGrow(s, s') && LogsGrow(s, s')
    ensures FrameOwned(s', f)
  {
    var share := f.blob.key.share;
    if share != NIL && share !in s'.granted {
      var owner := s.owner[share];
      assert s.devs[owner].dir.disk.log <= s'.devs[owner].dir.disk.log;
    }
  }

  // ---- one device's action ------------------------------------------------------------

  lemma ActGrowsBooks(s: Sys, s': Sys, d: Uuid, op: DevOp)
    requires BooksOk(s) && Acted(s, s', d, op)
    ensures BooksGrow(s, s')
  {
  }

  /** The shares a section can add to the keyring. */
  lemma TouchedShare(dev: Dev, r: Relay, d: Uuid, op: DevOp)
    requires DevEnabled(dev, r, d, op)
    ensures var t := TouchOf(dev, r, d, op);
            t.Touched? && t.op.Grow? ==>
              || t.op.share in dev.dir.disk.ring || t.op.share == NIL
              || (op.CreateShare? && t.op.share == op.share)
              || (op.AbsorbNext? && t.op.share == dev.phase.todo[0].share)
  {
  }

  lemma TouchedRing(dir: Dir, t: Touch)
    requires TouchEnabled(dir, t)
    ensures forall share | share in Touching(dir, t).disk.ring ::
              share in dir.disk.ring || (t.Touched? && t.op.Grow? && share == t.op.share)
  {
    if t.Touched? {
      LocalFrame(dir, t.h, t.op);
    }
  }

  lemma ActKeepsRingRights(s: Sys, s': Sys, d: Uuid, op: DevOp)
    requires RightsInv(s) && Acted(s, s', d, op)
    ensures RingRights(s', d, s'.devs[d].dir.disk.ring)
  {
    var dev := s.devs[d];
    assert DevRights(s, d, dev);
    DirStep(dev, s.relay, d, op);
    TouchedShare(dev, s.relay, d, op);
    TouchedRing(dev.dir, TouchOf(dev, s.relay, d, op));
    ActGrowsBooks(s, s', d, op);
    DevRightsStay(s, s', d, dev);
  }

  lemma ActKeepsPhaseRights(s: Sys, d: Uuid, op: DevOp)
    requires BooksOk(s) && d in s.devs && DevEnabled(s.devs[d], s.relay, d, op) && DevRights(s, d, s.devs[d])
    requires RowsTagged(s.relay)
    ensures PhaseRights(s, d, DevNext(s.devs[d], s.relay, d, op).phase)
  {
    var dev := s.devs[d];
    var p' := DevNext(dev, s.relay, d, op).phase;
    if op.PullPast? {
      var since := dev.dir.handles[dev.phase.h].meta.cursor;
      forall f | f in p'.rest ensures Right(s, d, f.blob.rec.shareId) {
        PulledFramesAreRows(s.relay, d, since, f);
        var row :| row in s.relay.entries && row.frame == f && MayPull(s.relay, d, row);
      }
    }
  }

  /** A handle appends only under a share its device has on disk. */
  lemma AppendHasRight(s: Sys, d: Uuid, hd: nat)
    requires RightsInv(s) && KeysInv(s) && d in s.devs && hd in s.devs[d].dir.handles
    requires CanAppend(s.devs[d].dir.handles[hd])
    ensures s.devs[d].dir.handles[hd].pending.value.shareId in s.devs[d].dir.disk.ring
    ensures Right(s, d, s.devs[d].dir.handles[hd].pending.value.shareId)
  {
    assert DevKeys(s.devs[d]) && DevRights(s, d, s.devs[d]);
    assert RingLe(s.devs[d].dir.handles[hd].ring, s.devs[d].dir.disk.ring);
  }

  lemma TouchKeepsLogRights(s: Sys, d: Uuid, dir: Dir, t: Touch)
    requires LogRights(s, d, dir.disk.log) && TouchEnabled(dir, t)
    requires t.Touched? && t.op.Append? ==> Right(s, d, dir.handles[t.h].pending.value.shareId)
    requires t.Touched? && t.op.Apply? ==> Right(s, d, t.op.frame.blob.rec.shareId)
    ensures LogRights(s, d, Touching(dir, t).disk.log)
    ensures dir.disk.log <= Touching(dir, t).disk.log
  {
    if t.Touched? {
      SectionBrings(dir, t.h, t.op);
    }
  }

  /** What a section puts into the log the device has a right to. */
  lemma TouchedHasRight(s: Sys, d: Uuid, op: DevOp)
    requires RightsInv(s) && KeysInv(s) && d in s.devs && DevEnabled(s.devs[d], s.relay, d, op)
    ensures var t := TouchOf(s.devs[d], s.relay, d, op);
            && TouchEnabled(s.devs[d].dir, t)
            && (t.Touched? && t.op.Append? ==> Right(s, d, s.devs[d].dir.handles[t.h].pending.value.shareId))
            && (t.Touched? && t.op.Apply? ==> Right(s, d, t.op.frame.blob.rec.shareId))
  {
    DirStep(s.devs[d], s.relay, d, op);
    assert DevRights(s, d, s.devs[d]);
    if op.Local? && op.op.Append? {
      AppendHasRight(s, d, op.hd);
    }
  }

  lemma ActKeepsLogRights(s: Sys, s': Sys, d: Uuid, op: DevOp)
    requires RightsInv(s) && KeysInv(s) && Acted(s, s', d, op)
    ensures LogRights(s, d, s'.devs[d].dir.disk.log)
    ensures s.devs[d].dir.disk.log <= s'.devs[d].dir.disk.log
  {
    assert DevRights(s, d, s.devs[d]);
    TouchedHasRight(s, d, op);
    DirStep(s.devs[d], s.relay, d, op);
    TouchKeepsLogRights(s, d, s.devs[d].dir, TouchOf(s.devs[d], s.relay, d, op));
  }

  lemma ActKeepsDevRights(s: Sys, s': Sys, d: Uuid, op: DevOp)
    requires RightsInv(s) && KeysInv(s) && RowsTagged(s.relay) && Acted(s, s', d, op)
    ensures DevRights(s', d, s'.devs[d])
  {
    assert DevRights(s, d, s.devs[d]);
    ActKeepsRingRights(s, s', d, op);
    ActKeepsLogRights(s, s', d, op);
    ActKeepsPhaseRights(s, d, op);
    ActGrowsBooks(s, s', d, op);
    assert forall share | Right(s, d, share) :: Right(s', d, share);
  }

  /** A frame of a share nobody was granted yet is appended by its creator. */
  lemma NewFrameOwned(s: Sys, s': Sys, d: Uuid, hd: nat, entry: Uuid)
    requires RightsInv(s) && KeysInv(s) && Acted(s, s', d, Local(hd, Append(entry)))
    ensures FrameOwned(s', SealedFrame(s.devs[d].dir.handles[hd], entry))
  {
    var dir := s.devs[d].dir;
    var f := SealedFrame(dir.handles[hd], entry);
    AppendHasRight(s, d, hd);
    assert DevKeys(s.devs[d]) && DevRights(s, d, s.devs[d]);
    assert ChainList(f.blob.rec.shareId, dir.handles[hd].ring[f.blob.rec.shareId]);
    assert f.blob.key.share == f.blob.rec.shareId;
    SectionBrings(dir, hd, Append(entry));
    assert s'.devs[d].dir.disk.log == dir.disk.log + [f];
  }

  lemma ActKeepsFrameOwners(s: Sys, s': Sys, d: Uuid, op: DevOp)
    requires RightsInv(s) && KeysInv(s) && Acted(s, s', d, op)
    ensures forall f | f in s'.world :: FrameOwned(s', f)
  {
    ActGrowsBooks(s, s', d, op);
    ActKeepsLogRights(s, s', d, op);
    assert LogsGrow(s, s');
    forall f | f in s'.world ensures FrameOwned(s', f) {
      if f in s.world {
        FrameStaysOwned(s, s', f);
      } else {
        NewFrameOwned(s, s', d, op.hd, op.op.entry);
      }
    }
  }

  lemma OthersKeepRights(s: Sys, s': Sys, d: Uuid)
    requires RightsInv(s) && OnlyDevice(s, s', d) && BooksGrow(s, s')
    ensures forall e | e in s'.devs && e != d :: DevRights(s', e, s'.devs[e])
  {
    forall e | e in s'.devs && e != d ensures DevRights(s', e, s'.devs[e]) {
      DevRightsStay(s, s', e, s.devs[e]);
    }
  }

  lemma ActKeepsBooks(s: Sys, s': Sys, d: Uuid, op: DevOp)
    requires BooksOk(s) && Acted(s, s', d, op)
    ensures BooksOk(s')
  {
    if op.PushLog? {
      StoreAllFrame(s.relay, s.devs[d].phase.local);
    }
  }

  lemma ActKeepsRights(s: Sys, s': Sys, d: Uuid, op: DevOp)
    requires RightsInv(s) && KeysInv(s) && RowsTagged(s.relay) && Acted(s, s', d, op)
    ensures RightsInv(s')
  {
    ActKeepsBooks(s, s', d, op);
    ActGrowsBooks(s, s', d, op);
    ActKeepsDevRights(s, s', d, op);
    ActKeepsFrameOwners(s, s', d, op);
    ActedAlone(s, s', d, op);
    OthersKeepRights(s, s', d);
  }

  // ---- the other actions -----------------------------------------------------------------

  /** Only a grant adds membership rows, for its own share, which its sender holds. */
  lemma RequestMembers(s: Sys, d: Uuid, now: int, body: Body)
    requires Enabled(s, Request(d, now, body))
    ensures forall k | k in Answer(s.relay, d, now, body).members && k !in s.relay.members ::
              && body.ShareGrant? && CanSync(s.relay, d)
              && k.0 == body.share && k.0 != NIL && Holds(s, d, k.0)
              && exists w :: w in body.wrapped && w.device == k.1
  {
    RequestEffect(s.relay, d, now, body);
    if body.ShareGrant? {
      WithMembersKeys(s.relay.members, body.share, body.wrapped);
    } else if body.ShareRotate? {
      WithoutMembersKeys(s.relay.members, body.share, body.remove);
      RewrappedKeys(WithoutMembers(s.relay.members, body.share, body.remove), body.share, body.wrapped);
    }
  }

  lemma RequestKeepsRights(s: Sys, d: Uuid, now: int, body: Body)
    requires RightsInv(s) && Enabled(s, Request(d, now, body))
    ensures RightsInv(Next(s, Request(d, now, body)))
  {
    var s' := Next(s, Request(d, now, body));
    RequestMembers(s, d, now, body);
    forall b | b in s'.belonged ensures b.0 != NIL && b.0 in s'.granted && b.0 in s'.minted {
      if b !in s.belonged && d in s.devs {
        assert DevRights(s, d, s.devs[d]);
      }
    }
    RelayFrame(s, Request(d, now, body));
    SameDevsKeepRights(s, s');
  }

  lemma SameDevsKeepRights(s: Sys, s': Sys)
    requires RightsInv(s) && BooksGrow(s, s') && s'.devs == s.devs && s'.world == s.world
    ensures forall f | f in s'.world :: FrameOwned(s', f)
    ensures forall d | d in s'.devs :: DevRights(s', d, s'.devs[d])
  {
    forall f | f in s.world ensures FrameOwned(s', f) {
      FrameStaysOwned(s, s', f);
    }
    forall d | d in s.devs ensures DevRights(s', d, s.devs[d]) {
      DevRightsStay(s, s', d, s.devs[d]);
    }
  }

  lemma JoinKeepsRights(s: Sys, d: Uuid, list: seq<Key>)
    requires RightsInv(s) && Enabled(s, Join(d, list))
    ensures RightsInv(Next(s, Join(d, list)))
  {
    var s' := Next(s, Join(d, list));
    assert BooksGrow(s, s') && LogsGrow(s, s');
    forall f | f in s'.world ensures FrameOwned(s', f) {
      FrameStaysOwned(s, s', f);
    }
    OthersKeepRights(s, s', d);
  }

  /** Every action keeps keys, entries and rounds within the rights of their device. */
  lemma StepKeepsRights(s: Sys, a: Action)
    requires RightsInv(s) && KeysInv(s) && RowsTagged(s.relay) && Enabled(s, a)
    ensures RightsInv(Next(s, a))
  {
    match a
    case Join(d, list) => JoinKeepsRights(s, d, list);
    case Act(d, op) =>
      ActFrame(s, d, op);
      ActKeepsRights(s, Next(s, a), d, op);
    case Request(d, now, body) => RequestKeepsRights(s, d, now, body);
    case _ =>
      RelayFrame(s, a);
      SameDevsKeepRights(s, Next(s, a));
  }
}
