/**
 Key lists over every run: under H4 every list anyone holds, wraps or is offered is a leading
 part of its share's one sequence, so keyrings only grow and openable frames stay openable.
 */
module ProtocolKeys {
  import opened Wrappers
  import opened Records
  import opened Keyrings
  import opened VaultSpec
  import opened VaultRuns
  import opened RelaySpec
  import opened Protocol
  import opened ProtocolSteps

  predicate ChainRing(ring: Ring) {
    forall s | s in ring :: ChainList(s, ring[s])
  }

  predicate OffersChain(offers: seq<Offer>) {
    forall o | o in offers :: o.share != NIL && ChainList(o.share, o.keys)
  }

  ghost predicate DirKeys(dir: Dir) {
    && NIL in dir.disk.ring
    && ChainRing(dir.disk.ring)
    && (forall h | h in dir.handles :: ChainRing(dir.handles[h].ring) && RingLe(dir.handles[h].ring, dir.disk.ring))
  }

  /** H6 as an invariant: a round's handle holds the keyring that is on disk. */
  ghost predicate PhaseKeys(dir: Dir, p: Phase) {
    && (!p.Idle? ==> p.h in dir.handles && dir.handles[p.h].ring == dir.disk.ring)
    && (p.Healing? ==> OffersChain(p.todo))
  }

  ghost predicate DevKeys(dev: Dev) {
    DirKeys(dev.dir) && PhaseKeys(dev.dir, dev.phase)
  }

  ghost predicate RelayKeys(r: Relay) {
    && (forall p | p in r.devices && r.devices[p].wrapped.Some? :: ChainList(NIL, r.devices[p].wrapped.value.keys))
    && (forall k | k in r.members :: k.0 != NIL && ChainList(k.0, r.members[k].keys))
  }

  ghost predicate KeysInv(s: Sys) {
    && RelayKeys(s.relay)
    && (forall d | d in s.devs :: DevKeys(s.devs[d]))
  }

  lemma KeyIsOfItsList(ring: Ring, key: Key)
    requires ChainRing(ring) && HoldsKey(ring, key)
    ensures key.share in ring && key in ring[key.share]
  {
    var s :| s in ring && key in ring[s];
    assert ChainList(s, ring[s]);
  }

  lemma PrefixOfChain(share: Uuid, part: seq<Key>, whole: seq<Key>)
    requires ChainList(share, whole) && part != [] && part <= whole
    ensures ChainList(share, part)
  {
  }

  lemma ChainsCompare(share: Uuid, a: seq<Key>, b: seq<Key>)
    requires ChainList(share, a) && ChainList(share, b) && |a| <= |b|
    ensures a <= b
  {
  }

  lemma RingLeTransitive(a: Ring, b: Ring, c: Ring)
    requires RingLe(a, b) && RingLe(b, c)
    ensures RingLe(a, c)
  {
  }

  /** Writing a longer chain list extends the keyring: every handle stays below it. */
  lemma GrowKeepsDir(dir: Dir, hd: nat, share: Uuid, keys: seq<Key>)
    requires DirKeys(dir) && LocalEnabled(dir, hd, Grow(share, keys)) && KeysInOrder(dir, hd, Grow(share, keys))
    requires ChainList(share, keys)
    ensures DirKeys(LocalNext(dir, hd, Grow(share, keys)))
    ensures RingLe(dir.disk.ring, LocalNext(dir, hd, Grow(share, keys)).disk.ring)
  {
    LocalFrame(dir, hd, Grow(share, keys));
    var ring, ring' := dir.disk.ring, LocalNext(dir, hd, Grow(share, keys)).disk.ring;
    if share in ring {
      ChainsCompare(share, ring[share], keys);
    }
    assert RingLe(ring, ring');
    forall h | h in dir.handles ensures RingLe(dir.handles[h].ring, ring') {
      RingLeTransitive(dir.handles[h].ring, ring, ring');
    }
  }

  /** A section that writes a key list writes a leading part of the share's sequence. */
  ghost predicate TouchKeys(t: Touch) {
    t.Touched? && t.op.Grow? ==> ChainList(t.op.share, t.op.keys)
  }

  lemma TouchKeepsDir(dir: Dir, t: Touch)
    requires DirKeys(dir) && TouchEnabled(dir, t) && TouchKeys(t)
    ensures DirKeys(Touching(dir, t))
    ensures RingLe(dir.disk.ring, Touching(dir, t).disk.ring)
  {
    if t.Touched? {
      if t.op.Grow? {
        GrowKeepsDir(dir, t.h, t.op.share, t.op.keys);
      } else {
        LocalFrame(dir, t.h, t.op);
      }
    }
  }

  // ---- the relay's copies ---------------------------------------------------------

  lemma OwnListsAreChains(ring: Ring, share: Uuid, ws: seq<WrappedFor>)
    requires ChainRing(ring) && WrapsOwnList(ring, share, ws)
    ensures forall w | w in ws :: ChainList(share, w.wrapped.keys)
  {
    forall w | w in ws ensures ChainList(share, w.wrapped.keys) {
      PrefixOfChain(share, w.wrapped.keys, ListOf(ring, share));
    }
  }

  lemma WrapsKeepDevices(r: Relay, ws: seq<WrappedFor>, devices': map<Pub, DeviceRow>)
    requires RelayKeys(r) && devices' == WithWraps(r.devices, ws)
    requires forall w | w in ws :: ChainList(NIL, w.wrapped.keys)
    ensures forall p | p in devices' && devices'[p].wrapped.Some? :: ChainList(NIL, devices'[p].wrapped.value.keys)
  {
    WrapsReachLiveRows(r.devices, ws);
    forall p | p in devices' && devices'[p].wrapped.Some?
      ensures ChainList(NIL, devices'[p].wrapped.value.keys)
    {
      if devices'[p].wrapped != r.devices[p].wrapped {
        var i :| 0 <= i < |ws| && ws[i].device == p && devices'[p].wrapped == Some(ws[i].wrapped);
        assert ws[i] in ws;
      }
    }
  }

  lemma GrantKeepsMembers(r: Relay, share: Uuid, ws: seq<WrappedFor>)
    requires RelayKeys(r) && share != NIL && forall w | w in ws :: ChainList(share, w.wrapped.keys)
    ensures RelayKeys(r.(members := WithMembers(r.members, share, ws)))
  {
    WithMembersKeys(r.members, share, ws);
    var ms := WithMembers(r.members, share, ws);
    forall k | k in ms ensures k.0 != NIL && ChainList(k.0, ms[k].keys) {
      if !(k in r.members && ms[k] == r.members[k]) {
        var i :| 0 <= i < |ws| && ws[i].device == k.1 && ms[k] == ws[i].wrapped;
        assert ws[i] in ws;
      }
    }
  }

  lemma RotationKeepsMembers(r: Relay, share: Uuid, gone: seq<Pub>, ws: seq<WrappedFor>)
    requires RelayKeys(r) && forall w | w in ws :: ChainList(share, w.wrapped.keys)
    ensures RelayKeys(r.(members := Rewrapped(WithoutMembers(r.members, share, gone), share, ws)))
    ensures Rewrapped(WithoutMembers(r.members, share, gone), share, ws).Keys <= r.members.Keys
  {
    var left := WithoutMembers(r.members, share, gone);
    WithoutMembersKeys(r.members, share, gone);
    RewrappedKeys(left, share, ws);
    var ms := Rewrapped(left, share, ws);
    forall k | k in ms ensures k.0 != NIL && ChainList(k.0, ms[k].keys) {
      if ms[k] != left[k] {
        var i :| 0 <= i < |ws| && ws[i].device == k.1 && ms[k] == ws[i].wrapped;
        assert ws[i] in ws;
      }
    }
  }

  lemma RequestKeepsRelayKeys(r: Relay, ring: Ring, d: Uuid, now: int, body: Body)
    requires RelayKeys(r) && ChainRing(ring) && ClientBuilt(ring, body)
    ensures RelayKeys(Serve(r, now, Signed(d, Sig(d, now, body), now, body)).relay)
  {
    RequestEffect(r, d, now, body);
    match body
    case Approve(target, wrapped) =>
      OwnListsAreChains(ring, NIL, [WrappedFor(target, wrapped)]);
      assert WrappedFor(target, wrapped) in [WrappedFor(target, wrapped)];
    case Rotate(_, ws) =>
      OwnListsAreChains(ring, NIL, ws);
      WrapsKeepDevices(r, ws, WithWraps(r.devices, ws));
    case ShareGrant(share, _, ws) =>
      OwnListsAreChains(ring, share, ws);
      GrantKeepsMembers(r, share, ws);
    case ShareRotate(share, _, ws, gone) =>
      OwnListsAreChains(ring, share, ws);
      RotationKeepsMembers(r, share, gone, ws);
    case _ =>
  }

  // ---- the system -------------------------------------------------------------------

  lemma TouchesWriteChains(dev: Dev, r: Relay, d: Uuid, op: DevOp)
    requires DevKeys(dev) && RelayKeys(r) && DevEnabled(dev, r, d, op)
    ensures TouchKeys(TouchOf(dev, r, d, op))
  {
  }

  /** A handle that writes the keyring outside a round finds every round over; in a round it is the round's own. */
  lemma PhaseStepKeepsKeys(dev: Dev, r: Relay, d: Uuid, op: DevOp)
    requires DevKeys(dev) && RelayKeys(r) && DevEnabled(dev, r, d, op)
    ensures PhaseKeys(DevNext(dev, r, d, op).dir, DevNext(dev, r, d, op).phase)
  {
    DirStep(dev, r, d, op);
    var t := TouchOf(dev, r, d, op);
    if t.Touched? {
      LocalFrame(dev.dir, t.h, t.op);
    }
  }

  lemma DevStepKeepsKeys(dev: Dev, r: Relay, d: Uuid, op: DevOp)
    requires DevKeys(dev) && RelayKeys(r) && DevEnabled(dev, r, d, op)
    ensures DevKeys(DevNext(dev, r, d, op))
    ensures RingLe(dev.dir.disk.ring, DevNext(dev, r, d, op).dir.disk.ring)
  {
    DirStep(dev, r, d, op);
    TouchesWriteChains(dev, r, d, op);
    TouchKeepsDir(dev.dir, TouchOf(dev, r, d, op));
    PhaseStepKeepsKeys(dev, r, d, op);
  }

  lemma PushKeepsRelayKeys(r: Relay, es: seq<TaggedFrame>)
    requires RelayKeys(r)
    ensures RelayKeys(StoreAll(r, es))
  {
    StoreAllFrame(r, es);
  }

  lemma RecoveryKeepsRelayKeys(r: Relay, q: Recover)
    requires RelayKeys(r)
    ensures RelayKeys(DoRecover(r, q).relay)
  {
  }

  lemma RelayStepKeepsKeys(s: Sys, a: Action)
    requires KeysInv(s) && Enabled(s, a) && !a.Act? && !a.Join?
    ensures RelayKeys(Next(s, a).relay)
  {
    match a
    case Request(d, now, body) =>
      RequestKeepsRelayKeys(s.relay, if d in s.devs then s.devs[d].dir.disk.ring else map[], d, now, body);
    case Recovery(q) => RecoveryKeepsRelayKeys(s.relay, q);
    case _ =>
  }

  /** No keyring loses a key in the step. */
  ghost predicate RingsGrow(s: Sys, s': Sys) {
    forall d | d in s.devs :: d in s'.devs && RingLe(s.devs[d].dir.disk.ring, s'.devs[d].dir.disk.ring)
  }

  lemma JoinKeepsKeys(s: Sys, d: Uuid, list: seq<Key>)
    requires KeysInv(s) && Enabled(s, Join(d, list))
    ensures DevKeys(Dev(NewDir(d, list), Idle))
  {
    assert ChainList(NIL, list);
  }

  lemma ActKeepsKeys(s: Sys, s': Sys, d: Uuid, op: DevOp)
    requires KeysInv(s) && Acted(s, s', d, op)
    ensures KeysInv(s') && RingsGrow(s, s')
  {
    if op.PushLog? {
      PushKeepsRelayKeys(s.relay, s.devs[d].phase.local);
    }
    DevStepKeepsKeys(s.devs[d], s.relay, d, op);
  }

  /** Every action keeps all key lists on their chains and keyrings only growing. */
  lemma StepKeepsKeys(s: Sys, a: Action)
    requires KeysInv(s) && Enabled(s, a)
    ensures KeysInv(Next(s, a))
    ensures RingsGrow(s, Next(s, a))
  {
    match a
    case Join(d, list) =>
      JoinKeepsKeys(s, d, list);
    case Act(d, op) =>
      ActFrame(s, d, op);
      ActKeepsKeys(s, Next(s, a), d, op);
    case _ =>
      RelayFrame(s, a);
      RelayStepKeepsKeys(s, a);
  }
}
