/**
 What an action does to the vault directory it touches: at most one locked section of one
 handle. Facts about directories are proved per section instead of per action.
 */
module ProtocolSteps {
  import opened Records
  import opened Keyrings
  import opened VaultRuns
  import opened RelaySpec
  import opened Protocol

  datatype Touch = Untouched | Touched(h: nat, op: LocalOp)

  function GrowTouch(dir: Dir, hd: nat, share: Uuid, keys: seq<Key>): Touch {
    if |keys| > |ListOf(dir.disk.ring, share)| then Touched(hd, Grow(share, keys)) else Untouched
  }

  /** The directory section that an action of a device performs. */
  function TouchOf(dev: Dev, r: Relay, d: Uuid, op: DevOp): Touch
    requires DevEnabled(dev, r, d, op)
  {
    match op
    case Local(hd, lop) => Touched(hd, lop)
    case CreateShare(hd, share) => Touched(hd, Grow(share, [Key(share, 0)]))
    case RotateKey(hd, share) =>
      var list := dev.dir.disk.ring[share];
      Touched(hd, Grow(share, list + [Key(share, |list|)]))
    case HealDefault =>
      var reply := DoWrapped(r, d).reply;
      if reply.epoch > EpochOf(dev.dir.disk.ring, NIL) && reply.list.Some? && reply.list.value.recipient == d
      then GrowTouch(dev.dir, dev.phase.h, NIL, reply.list.value.keys) else Untouched
    case AbsorbNext =>
      var o := dev.phase.todo[0];
      if o.share !in dev.dir.disk.ring || o.epoch > EpochOf(dev.dir.disk.ring, o.share)
      then GrowTouch(dev.dir, dev.phase.h, o.share, o.keys) else Untouched
    case Rewind => Touched(dev.phase.h, ResetCursor)
    case ApplyNext =>
      if dev.phase.rest[0].id in dev.phase.have then Untouched else Touched(dev.phase.h, Apply(dev.phase.rest[0]))
    case Finish => Touched(dev.phase.h, SetCursor(dev.phase.head))
    case _ => Untouched
  }

  ghost predicate TouchEnabled(dir: Dir, t: Touch) {
    t.Touched? ==> LocalEnabled(dir, t.h, t.op) && !t.op.Install? && KeysInOrder(dir, t.h, t.op)
  }

  function Touching(dir: Dir, t: Touch): Dir
    requires TouchEnabled(dir, t)
  {
    match t
    case Untouched => dir
    case Touched(h, op) => LocalNext(dir, h, op)
  }

  /** Every action of a device performs exactly its section. */
  lemma DirStep(dev: Dev, r: Relay, d: Uuid, op: DevOp)
    requires DevEnabled(dev, r, d, op)
    ensures TouchEnabled(dev.dir, TouchOf(dev, r, d, op))
    ensures DevNext(dev, r, d, op).dir == Touching(dev.dir, TouchOf(dev, r, d, op))
  {
  }

  // ---- the system ---------------------------------------------------------------------

  /** `s'` is the system after an action of one device. */
  ghost predicate Acted(s: Sys, s': Sys, d: Uuid, op: DevOp) {
    && d in s.devs && DevEnabled(s.devs[d], s.relay, d, op) && FreshAndChained(s, d, op)
    && s'.devs == s.devs[d := DevNext(s.devs[d], s.relay, d, op)]
    && s'.relay == (if op.PushLog? then StoreAll(s.relay, s.devs[d].phase.local) else s.relay)
    && s'.world == s.world + NewFrames(s.devs[d], op)
    && s'.issued == s.issued + NewDrafts(s.devs[d], op)
    && s'.minted == NewMinted(s, d, op)
    && s'.owner == (if op.CreateShare? then s.owner[op.share := d] else s.owner)
    && s'.granted == s.granted && s'.belonged == s.belonged
  }

  lemma ActFrame(s: Sys, d: Uuid, op: DevOp)
    requires Enabled(s, Act(d, op))
    ensures Acted(s, Next(s, Act(d, op)), d, op)
  {
  }

  /** At most device `d` changed, and frames and records were only added. */
  ghost predicate OnlyDevice(s: Sys, s': Sys, d: Uuid) {
    && d in s'.devs
    && (forall e | e in s'.devs && e != d :: e in s.devs && s'.devs[e] == s.devs[e])
    && s.world <= s'.world && s.issued <= s'.issued
  }

  lemma ActedAlone(s: Sys, s': Sys, d: Uuid, op: DevOp)
    requires Acted(s, s', d, op)
    ensures OnlyDevice(s, s', d)
  {
  }

  /** What one request does to the tables that other parts of the system read. */
  lemma RequestEffect(r: Relay, d: Uuid, now: int, body: Body)
    requires body.Enroll? || body.Approve? || body.Revoke? || body.Rotate? || body.ShareGrant? || body.ShareRotate?
    ensures var r' := Serve(r, now, Signed(d, Sig(d, now, body), now, body)).relay;
            && r'.entries == r.entries && r'.lastSeq == r.lastSeq
            && (!body.ShareGrant? && !body.ShareRotate? ==> r'.members == r.members && r'.shareEpochs == r.shareEpochs)
            && (body.ShareGrant? || body.ShareRotate? ==> r'.devices == r.devices)
            && (body.ShareGrant? ==>
                  r'.members == if CanSync(r, d) then WithMembers(r.members, body.share, body.wrapped) else r.members)
            && (body.ShareRotate? ==>
                  || r'.members == r.members
                  || r'.members ==
                     Rewrapped(WithoutMembers(r.members, body.share, body.remove), body.share, body.wrapped))
            && (body.Rotate? ==> r'.devices == r.devices || r'.devices == WithWraps(r.devices, body.wrapped))
  {
  }

  /** The system after an action in which no device takes part. */
  lemma RelayFrame(s: Sys, a: Action)
    requires Enabled(s, a) && !a.Act? && !a.Join?
    ensures var s' := Next(s, a);
            && s'.devs == s.devs && s'.world == s.world && s'.issued == s.issued
            && s'.minted == s.minted && s'.owner == s.owner
            && s'.relay.entries == s.relay.entries && s.relay.lastSeq <= s'.relay.lastSeq
  {
    if a.Request? {
      RequestEffect(s.relay, a.d, a.now, a.body);
    }
  }

  /** An action changes no device but the one that acts. */
  lemma OtherDevicesStay(s: Sys, a: Action, d: Uuid)
    requires Enabled(s, a) && d in s.devs && !(a.Act? && a.d == d)
    ensures d in Next(s, a).devs && Next(s, a).devs[d] == s.devs[d]
  {
    match a
    case Join(_, _) =>
    case Act(e, op) => ActFrame(s, e, op);
    case _ => RelayFrame(s, a);
  }
}
