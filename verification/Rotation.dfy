/**
 Rotation end to end: what revoking a device and rotating the default share does to the relay,
 to the devices the new list is wrapped for, and to the revoked device, in every continuation.
 */
module Rotation {
  import opened Wrappers
  import opened Records
  import opened Keyrings
  import opened VaultSpec
  import opened VaultRuns
  import opened RelaySpec
  import RelayRuns
  import opened Protocol
  import opened ProtocolSteps
  import opened ProtocolKeys
  import opened ProtocolRights
  import Runs = ProtocolRuns

  /** A device's key list of a share on disk. */
  function ShareList(s: Sys, d: Uuid, share: Uuid): seq<Key>
    requires d in s.devs
  {
    ListOf(s.devs[d].dir.disk.ring, share)
  }

  function DefaultList(s: Sys, d: Uuid): seq<Key>
    requires d in s.devs
  {
    ShareList(s, d, NIL)
  }

  /** A rotation request of the client: the whole new list, wrapped for each listed device. */
  predicate WrapsWholeList(body: Body, list: seq<Key>) {
    && (body.Rotate? || body.ShareRotate?) && body.epoch + 1 == |list|
    && (forall w | w in body.wrapped :: w.wrapped == Wrapped(w.device, list))
  }

  ghost predicate Accepts(r: Relay, d: Uuid, now: int, body: Body) {
    Serve(r, now, Signed(d, Sig(d, now, body), now, body)).reply.Done?
  }

  /** Step `i` rotates the default share to `list`, which its sender holds. */
  ghost predicate RotatesTo(ss: seq<Sys>, acts: seq<Action>, i: nat, list: seq<Key>) {
    && Runs.Run(ss, acts) && i < |acts|
    && acts[i].Request? && acts[i].d in ss[i].devs && list == DefaultList(ss[i], acts[i].d)
    && acts[i].body.Rotate? && WrapsWholeList(acts[i].body, list)
    && Accepts(ss[i].relay, acts[i].d, acts[i].now, acts[i].body)
  }

  // ---- at the relay -----------------------------------------------------------------------

  ghost predicate EpochIs(r: Relay, epoch: int) {
    r.vault.Some? && r.vault.value.epoch == epoch
  }

  ghost predicate EpochAtLeast(r: Relay, epoch: int) {
    r.vault.Some? && r.vault.value.epoch >= epoch
  }

  /** The relay holds this list, wrapped for the device. */
  predicate HasWrap(r: Relay, p: Pub, list: seq<Key>) {
    p in r.devices && r.devices[p].wrapped == Some(Wrapped(p, list))
  }

  predicate Listed(body: Body, p: Pub)
    requires body.Rotate? || body.ShareRotate?
  {
    exists w :: w in body.wrapped && w.device == p
  }

  /**
   A rotation that is accepted raises the epoch by exactly one and leaves the new list with every
   listed live device.
   */
  lemma RotationReachesRows(ss: seq<Sys>, acts: seq<Action>, i: nat, list: seq<Key>)
    requires RotatesTo(ss, acts, i, list)
    ensures EpochIs(ss[i].relay, |list| - 2) && EpochIs(ss[i + 1].relay, |list| - 1)
    ensures forall p | p in ss[i].relay.devices && !ss[i].relay.devices[p].revoked && Listed(acts[i].body, p) ::
              HasWrap(ss[i + 1].relay, p, list)
    ensures forall p | p in ss[i].relay.devices && ss[i].relay.devices[p].revoked ::
              p in ss[i + 1].relay.devices && ss[i + 1].relay.devices[p] == ss[i].relay.devices[p]
  {
    assert Runs.StepAt(ss, acts, i);
    var r, body := ss[i].relay, acts[i].body;
    WrapsReachLiveRows(r.devices, body.wrapped);
    forall p | p in r.devices && !r.devices[p].revoked && Listed(body, p)
      ensures HasWrap(ss[i + 1].relay, p, list)
    {
      var w :| w in body.wrapped && w.device == p;
      var k :| 0 <= k < |body.wrapped| && body.wrapped[k] == w;
      assert body.wrapped[k].device == p;
      var j :| 0 <= j < |body.wrapped| && body.wrapped[j].device == p
                 && WithWraps(r.devices, body.wrapped)[p].wrapped == Some(body.wrapped[j].wrapped);
      assert body.wrapped[j] in body.wrapped;
    }
  }

  // ---- events of the relay in a run of the system -----------------------------------------

  /** What the action is to the relay. */
  function EventOf(s: Sys, a: Action): RelayRuns.Event {
    match a
    case Request(d, now, body) => RelayRuns.Request(now, Signed(d, Sig(d, now, body), now, body))
    case Recovery(q) => RelayRuns.Recovery(0, q)
    case Foreign(now, sig, rows) => RelayRuns.Foreign(now, sig, rows)
    case Act(d, PushLog) =>
      if d in s.devs && s.devs[d].phase.Pushing?
      then RelayRuns.Request(0, Signed(d, Sig(d, 0, Push(s.devs[d].phase.local)), 0, Push(s.devs[d].phase.local)))
      else RelayRuns.Foreign(0, Sig(d, 0, GetShares), 0)
    case _ => RelayRuns.Request(0, Signed(0, Sig(0, 0, GetDevices), 0, GetDevices))
  }

  /** Every action is to the relay what one of its own events is. */
  lemma ActionIsEvent(s: Sys, a: Action)
    requires Enabled(s, a)
    ensures Next(s, a).relay == RelayRuns.Step(s.relay, EventOf(s, a)).relay
  {
  }

  lemma {:induction false} RunKeepsRows(ss: seq<Sys>, acts: seq<Action>, n: nat)
    requires Runs.Run(ss, acts) && n < |ss|
    ensures RelayRuns.DevicesOk(ss[n].relay)
  {
    if n > 0 {
      RunKeepsRows(ss, acts, n - 1);
      assert Runs.StepAt(ss, acts, n - 1);
      ActionIsEvent(ss[n - 1], acts[n - 1]);
      RelayRuns.StepKeepsDevices(ss[n - 1].relay, EventOf(ss[n - 1], acts[n - 1]));
    }
  }

  lemma {:induction false} EpochStays(ss: seq<Sys>, acts: seq<Action>, m: nat, n: nat, epoch: int)
    requires Runs.Run(ss, acts) && m <= n < |ss| && EpochAtLeast(ss[m].relay, epoch)
    ensures EpochAtLeast(ss[n].relay, epoch)
  {
    if m < n {
      EpochStays(ss, acts, m, n - 1, epoch);
      assert Runs.StepAt(ss, acts, n - 1);
      ActionIsEvent(ss[n - 1], acts[n - 1]);
      RelayRuns.StepRaisesEpochs(ss[n - 1].relay, EventOf(ss[n - 1], acts[n - 1]));
    }
  }

  // ---- the remaining devices --------------------------------------------------------------

  /** The relay accepts a request that replaces or clears the list it has wrapped for the device. */
  ghost predicate Rewraps(s: Sys, a: Action, p: Pub) {
    a.Request? && Accepts(s.relay, a.d, a.now, a.body) &&
    match a.body
    case Approve(target, _) => target == p
    case Revoke(target) => target == p
    case Rotate(_, ws) => exists w :: w in ws && w.device == p
    case _ => false
  }

  lemma WrapStays(s: Sys, a: Action, p: Pub, list: seq<Key>)
    requires Enabled(s, a) && !Rewraps(s, a, p) && HasWrap(s.relay, p, list)
    ensures HasWrap(Next(s, a).relay, p, list)
  {
    match a
    case Request(d, now, body) =>
      RequestEffect(s.relay, d, now, body);
      if body.Rotate? && Accepts(s.relay, d, now, body) {
        WrapsReachLiveRows(s.relay.devices, body.wrapped);
        forall i | 0 <= i < |body.wrapped| ensures body.wrapped[i].device != p {
          assert body.wrapped[i] in body.wrapped;
        }
      }
    case Act(d, op) =>
      if op.PushLog? {
        StoreAllFrame(s.relay, s.devs[d].phase.local);
      }
    case _ =>
  }

  lemma {:induction false} WrapKept(ss: seq<Sys>, acts: seq<Action>, m: nat, n: nat, p: Pub, list: seq<Key>)
    requires Runs.Run(ss, acts) && m <= n < |ss| && HasWrap(ss[m].relay, p, list)
    requires forall k: nat {:trigger acts[k]} | m <= k < n :: !Rewraps(ss[k], acts[k], p)
    ensures HasWrap(ss[n].relay, p, list)
  {
    if m < n {
      WrapKept(ss, acts, m, n - 1, p, list);
      assert Runs.StepAt(ss, acts, n - 1);
      assert !Rewraps(ss[n - 1], acts[n - 1], p);
      WrapStays(ss[n - 1], acts[n - 1], p, list);
    }
  }

  /** A heal that finds the list and an epoch that is ahead leaves the device holding at least the list. */
  lemma HealTakesList(s: Sys, p: Uuid, list: seq<Key>)
    requires KeysInv(s) && Enabled(s, Act(p, HealDefault)) && list != []
    requires HasWrap(s.relay, p, list) && EpochAtLeast(s.relay, |list| - 1)
    ensures p in Next(s, Act(p, HealDefault)).devs && list <= DefaultList(Next(s, Act(p, HealDefault)), p)
  {
    var dev := s.devs[p];
    assert DevKeys(dev);
    var held := dev.dir.disk.ring[NIL];
    assert ChainList(NIL, held) && ChainList(NIL, list);
    if |list| <= |held| {
      ChainsCompare(NIL, list, held);
      DevStepKeepsKeys(dev, s.relay, p, HealDefault);
    } else {
      LocalFrame(dev.dir, dev.phase.h, Grow(NIL, list));
    }
  }

  /** The device opens every frame sealed under a key of the list. */
  ghost predicate ReadsUnder(s: Sys, p: Uuid, list: seq<Key>) {
    p in s.devs && forall f: Frame | f.blob.aad == f.id && f.blob.key in list :: Opens(s.devs[p].dir.disk.ring, f)
  }

  lemma HeldListReads(s: Sys, p: Uuid, share: Uuid, list: seq<Key>)
    requires p in s.devs && list <= ShareList(s, p, share)
    ensures ReadsUnder(s, p, list)
  {
    forall f: Frame | f.blob.aad == f.id && f.blob.key in list
      ensures Opens(s.devs[p].dir.disk.ring, f)
    {
      assert f.blob.key in s.devs[p].dir.disk.ring[share];
    }
  }

  lemma HealedAt(ss: seq<Sys>, acts: seq<Action>, n: nat, list: seq<Key>, p: Uuid)
    requires Runs.Run(ss, acts) && n < |acts| && acts[n] == Act(p, HealDefault) && list != []
    requires HasWrap(ss[n].relay, p, list) && EpochAtLeast(ss[n].relay, |list| - 1)
    ensures p in ss[n + 1].devs && list <= DefaultList(ss[n + 1], p)
  {
    Runs.RunKeepsInv(ss, acts, n);
    assert Runs.StepAt(ss, acts, n);
    HealTakesList(ss[n], p, list);
  }

  /** A list that is held is held, and reads, from then on. */
  lemma HeldListStays(ss: seq<Sys>, acts: seq<Action>, n: nat, k: nat, share: Uuid, list: seq<Key>, p: Uuid)
    requires Runs.Run(ss, acts) && n <= k < |ss| && p in ss[n].devs && list <= ShareList(ss[n], p, share)
    ensures ReadsUnder(ss[k], p, list)
  {
    Runs.RunGrows(ss, acts, n, k);
    assert RingLe(ss[n].devs[p].dir.disk.ring, ss[k].devs[p].dir.disk.ring);
    HeldListReads(ss[k], p, share, list);
  }

  /** A device that healed while the list was there for it keeps reading under the list. */
  lemma HealedDeviceReads(ss: seq<Sys>, acts: seq<Action>, n: nat, k: nat, list: seq<Key>, p: Uuid)
    requires Runs.Run(ss, acts) && n < k < |ss| && acts[n] == Act(p, HealDefault) && list != []
    requires HasWrap(ss[n].relay, p, list) && EpochAtLeast(ss[n].relay, |list| - 1)
    ensures ReadsUnder(ss[k], p, list)
  {
    HealedAt(ss, acts, n, list, p);
    HeldListStays(ss, acts, n + 1, k, NIL, list, p);
  }

  /**
   After an accepted rotation, a listed live device that heals once, while its wrapped list is
   still there, opens from then on everything sealed under any key up to the new one.
   */
  lemma ListedDeviceReads(ss: seq<Sys>, acts: seq<Action>, i: nat, n: nat, k: nat, list: seq<Key>, p: Uuid)
    requires RotatesTo(ss, acts, i, list) && i < n < k < |ss|
    requires p in ss[i].relay.devices && !ss[i].relay.devices[p].revoked && Listed(acts[i].body, p)
    requires forall j: nat {:trigger acts[j]} | i < j < n :: !Rewraps(ss[j], acts[j], p)
    requires acts[n] == Act(p, HealDefault)
    ensures ReadsUnder(ss[k], p, list)
  {
    RotationReachesRows(ss, acts, i, list);
    WrapKept(ss, acts, i + 1, n, p, list);
    EpochStays(ss, acts, i + 1, n, |list| - 1);
    HealedDeviceReads(ss, acts, n, k, list, p);
  }

  /** A record that a handle appends is sealed under the last key of the handle's own list of its share. */
  lemma HandleSealsUnder(s: Sys, d: Uuid, h: nat, entry: Uuid)
    requires KeysInv(s) && d in s.devs && h in s.devs[d].dir.handles && CanAppend(s.devs[d].dir.handles[h])
    ensures var me := s.devs[d].dir.handles[h];
            var share := me.pending.value.shareId;
            && SealedFrame(me, entry).blob.key == Key(share, |ListOf(me.ring, share)| - 1)
            && SealedFrame(me, entry).blob.aad == SealedFrame(me, entry).id
            && ListOf(me.ring, share) <= ShareList(s, d, share)
  {
    var me := s.devs[d].dir.handles[h];
    assert DevKeys(s.devs[d]);
    assert RingLe(me.ring, s.devs[d].dir.disk.ring);
    assert ChainList(me.pending.value.shareId, me.ring[me.pending.value.shareId]);
  }

  /**
   Until the device that rotated takes up a still newer list, whatever any of its handles appends to
   the default share is sealed under a key of the list: under the new key exactly when the handle
   holds the whole list, and under an older one when the handle is stale.
   */
  lemma RotatorSealsUnder(ss: seq<Sys>, acts: seq<Action>, i: nat, k: nat, list: seq<Key>, h: nat, entry: Uuid)
    requires RotatesTo(ss, acts, i, list) && i <= k < |ss|
    requires acts[i].d in ss[k].devs && DefaultList(ss[k], acts[i].d) == list
    requires h in ss[k].devs[acts[i].d].dir.handles && CanAppend(ss[k].devs[acts[i].d].dir.handles[h])
    requires ss[k].devs[acts[i].d].dir.handles[h].pending.value.shareId == NIL
    ensures var me := ss[k].devs[acts[i].d].dir.handles[h];
            var f := SealedFrame(me, entry);
            && f.blob.key in list && f.blob.aad == f.id
            && (f.blob.key == list[|list| - 1] <==> ListOf(me.ring, NIL) == list)
  {
    Runs.RunKeepsInv(ss, acts, k);
    HandleSealsUnder(ss[k], acts[i].d, h, entry);
    assert DevKeys(ss[k].devs[acts[i].d]);
    LastOfPart(ListOf(ss[k].devs[acts[i].d].dir.handles[h].ring, NIL), list);
  }

  lemma LastOfPart(held: seq<Key>, list: seq<Key>)
    requires held != [] && held <= list && ChainList(NIL, list)
    ensures Key(NIL, |held| - 1) in list
    ensures Key(NIL, |held| - 1) == list[|list| - 1] <==> held == list
  {
    assert list[|held| - 1] == Key(NIL, |held| - 1);
  }

  /**
   And such a record in its log is covered by its state after an open, and after a reload by a
   handle that has healed.
   */
  lemma ReloadShowsRecord(ss: seq<Sys>, acts: seq<Action>, k: nat, p: Uuid, share: Uuid, list: seq<Key>, f: Frame)
    requires Runs.Run(ss, acts) && k < |ss| && ReadsUnder(ss[k], p, list)
    requires f in ss[k].devs[p].dir.disk.log && f.blob.key in list
    ensures var dir, rec := ss[k].devs[p].dir, f.blob.rec;
            && ShowsRecord(Replayed(Unlocked(dir.disk)).me.state, rec)
            && forall h | h in dir.handles && list <= ListOf(dir.handles[h].ring, share) ::
                 ShowsRecord(Replayed(Refreshed(ViewOf(dir, h))).me.state, rec)
  {
    var dir, rec := ss[k].devs[p].dir, f.blob.rec;
    Runs.DirAt(ss, acts, k, p);
    Runs.RunKeepsInv(ss, acts, k);
    OpenIsReplay(dir);
    assert f.blob.aad == f.id;
    ReplayShows(dir.disk.ring, dir.disk.log, f);
    forall h | h in dir.handles && list <= ListOf(dir.handles[h].ring, share)
      ensures ShowsRecord(Replayed(Refreshed(ViewOf(dir, h))).me.state, rec)
    {
      ReloadIsReplay(dir, h);
      assert f.blob.key in dir.handles[h].ring[share];
      ReplayShows(dir.handles[h].ring, dir.disk.log, f);
    }
  }

  // ---- the revoked device -----------------------------------------------------------------

  /**
   The relay accepts a recovery of the device, or it mints a default-share key itself: both take
   the recovery phrase.
   */
  predicate PhraseUsed(s: Sys, a: Action, t: Uuid) {
    || (a.Recovery? && a.q.pub == t && DoRecover(s.relay, a.q).reply.Done?)
    || (a.Act? && a.d == t && a.op.RotateKey? && a.op.share == NIL)
  }

  /** Only healing and minting touch a default-share list, and a revoked device is refused the heal. */
  lemma RevokedDevStays(dev: Dev, r: Relay, t: Uuid, op: DevOp)
    requires DevKeys(dev) && DevEnabled(dev, r, t, op) && RelayRuns.IsRevoked(r, t)
    requires !(op.RotateKey? && op.share == NIL)
    ensures ListOf(DevNext(dev, r, t, op).dir.disk.ring, NIL) == ListOf(dev.dir.disk.ring, NIL)
  {
    DirStep(dev, r, t, op);
    var touch := TouchOf(dev, r, t, op);
    if touch.Touched? {
      LocalFrame(dev.dir, touch.h, touch.op);
    }
  }

  lemma RevokedListStays(s: Sys, a: Action, t: Uuid)
    requires KeysInv(s) && Enabled(s, a) && t in s.devs && RelayRuns.IsRevoked(s.relay, t) && !PhraseUsed(s, a, t)
    ensures t in Next(s, a).devs && DefaultList(Next(s, a), t) == DefaultList(s, t)
  {
    if a.Act? && a.d == t {
      ActFrame(s, t, a.op);
      RevokedDevStays(s.devs[t], s.relay, t, a.op);
    }
  }

  lemma RevocationStays(s: Sys, a: Action, t: Uuid)
    requires RelayRuns.DevicesOk(s.relay) && Enabled(s, a) && RelayRuns.IsRevoked(s.relay, t) && !PhraseUsed(s, a, t)
    ensures RelayRuns.IsRevoked(Next(s, a).relay, t)
  {
    ActionIsEvent(s, a);
    RelayRuns.RevocationIsSticky(s.relay, EventOf(s, a), t);
  }

  lemma RevokedStep(ss: seq<Sys>, acts: seq<Action>, n: nat, t: Uuid)
    requires Runs.Run(ss, acts) && n < |acts| && t in ss[n].devs && RelayRuns.IsRevoked(ss[n].relay, t)
    requires !PhraseUsed(ss[n], acts[n], t)
    ensures t in ss[n + 1].devs && RelayRuns.IsRevoked(ss[n + 1].relay, t)
    ensures DefaultList(ss[n + 1], t) == DefaultList(ss[n], t)
  {
    Runs.RunKeepsInv(ss, acts, n);
    RunKeepsRows(ss, acts, n);
    assert Runs.StepAt(ss, acts, n);
    RevokedListStays(ss[n], acts[n], t);
    RevocationStays(ss[n], acts[n], t);
  }

  /** In every continuation without the recovery phrase a revoked device's default-share list stays what it was. */
  lemma {:induction false} RevokedListNeverChanges(ss: seq<Sys>, acts: seq<Action>, m: nat, n: nat, t: Uuid)
    requires Runs.Run(ss, acts) && m <= n < |ss| && t in ss[m].devs && RelayRuns.IsRevoked(ss[m].relay, t)
    requires forall k: nat {:trigger acts[k]} | m <= k < n :: !PhraseUsed(ss[k], acts[k], t)
    ensures t in ss[n].devs && RelayRuns.IsRevoked(ss[n].relay, t) && DefaultList(ss[n], t) == DefaultList(ss[m], t)
  {
    if m < n {
      RevokedListNeverChanges(ss, acts, m, n - 1, t);
      assert !PhraseUsed(ss[n - 1], acts[n - 1], t);
      RevokedStep(ss, acts, n - 1, t);
    }
  }

  /** A frame opens exactly when the keyring's list of its share reaches its key. */
  lemma OpensIff(ring: Ring, f: Frame)
    requires ChainRing(ring) && f.blob.aad == f.id
    ensures Opens(ring, f) <==> f.blob.key.serial < |ListOf(ring, f.blob.key.share)|
  {
    var share := f.blob.key.share;
    if f.blob.key.serial < |ListOf(ring, share)| {
      assert ChainList(share, ring[share]) && ring[share][f.blob.key.serial] == f.blob.key;
      assert f.blob.key in ring[share];
    } else {
      NotHeld(ring, f);
    }
  }

  /**
   In every continuation without the recovery phrase, a revoked device opens a frame of the default
   share, whoever sealed it and whenever, exactly when its key is one the device held at revocation.
   */
  lemma RevokedReadsIff(ss: seq<Sys>, acts: seq<Action>, m: nat, n: nat, t: Uuid, f: Frame)
    requires Runs.Run(ss, acts) && m <= n < |ss| && t in ss[m].devs && RelayRuns.IsRevoked(ss[m].relay, t)
    requires forall k: nat {:trigger acts[k]} | m <= k < n :: !PhraseUsed(ss[k], acts[k], t)
    requires f.blob.key.share == NIL && f.blob.aad == f.id
    ensures t in ss[n].devs
    ensures Opens(ss[n].devs[t].dir.disk.ring, f) <==> f.blob.key.serial < |DefaultList(ss[m], t)|
  {
    RevokedListNeverChanges(ss, acts, m, n, t);
    Runs.RunKeepsInv(ss, acts, n);
    assert DevKeys(ss[n].devs[t]);
    OpensIff(ss[n].devs[t].dir.disk.ring, f);
  }

  /**
   After an accepted rotation, in every continuation without the recovery phrase, a revoked device
   that did not hold the new key opens no frame sealed under it or under any later key of the default
   share, with the keyring on its disk or in any of its handles.
   */
  lemma RevokedDeviceStaysOut(ss: seq<Sys>, acts: seq<Action>, i: nat, n: nat, list: seq<Key>, t: Uuid, f: Frame)
    requires RotatesTo(ss, acts, i, list) && i <= n < |ss|
    requires t in ss[i].devs && RelayRuns.IsRevoked(ss[i].relay, t) && |DefaultList(ss[i], t)| < |list|
    requires forall k: nat {:trigger acts[k]} | i <= k < n :: !PhraseUsed(ss[k], acts[k], t)
    requires f.blob.key.share == NIL && f.blob.key.serial >= |list| - 1
    ensures t in ss[n].devs && !Opens(ss[n].devs[t].dir.disk.ring, f)
    ensures forall h | h in ss[n].devs[t].dir.handles :: !Opens(ss[n].devs[t].dir.handles[h].ring, f)
  {
    RevokedListNeverChanges(ss, acts, i, n, t);
    Runs.RunKeepsInv(ss, acts, n);
    var dir := ss[n].devs[t].dir;
    assert DevKeys(ss[n].devs[t]);
    NotHeld(dir.disk.ring, f);
    HandlesHoldLess(dir, f);
  }

  lemma HandlesHoldLess(dir: Dir, f: Frame)
    requires DirKeys(dir) && !Opens(dir.disk.ring, f)
    ensures forall h | h in dir.handles :: !Opens(dir.handles[h].ring, f)
  {
    forall h | h in dir.handles ensures !Opens(dir.handles[h].ring, f) {
      if Opens(dir.handles[h].ring, f) {
        GrowthKeepsOpen(dir.handles[h].ring, dir.disk.ring, f);
      }
    }
  }

  /**
   What one device opens of what any handle of any device writes: a record of any share, appended at
   any time, is opened by device `t` exactly when the writing handle's list of the share is no longer
   than the list `t` has.
   */
  lemma ReadsWriteIff(ss: seq<Sys>, acts: seq<Action>, k: nat, n: nat, t: Uuid, d: Uuid, h: nat, entry: Uuid)
    requires Runs.Run(ss, acts) && n < |ss| && k < |ss| && t in ss[n].devs
    requires d in ss[k].devs && h in ss[k].devs[d].dir.handles && CanAppend(ss[k].devs[d].dir.handles[h])
    ensures var me := ss[k].devs[d].dir.handles[h];
            var share := me.pending.value.shareId;
            Opens(ss[n].devs[t].dir.disk.ring, SealedFrame(me, entry))
            <==> |ListOf(me.ring, share)| <= |ShareList(ss[n], t, share)|
  {
    Runs.RunKeepsInv(ss, acts, k);
    Runs.RunKeepsInv(ss, acts, n);
    HandleSealsUnder(ss[k], d, h, entry);
    assert DevKeys(ss[n].devs[t]);
    OpensIff(ss[n].devs[t].dir.disk.ring, SealedFrame(ss[k].devs[d].dir.handles[h], entry));
  }

  /**
   What a revoked device opens of what others write: a default-share record that any handle of any
   device appends, before or after, is opened by the revoked device, at any later point without the
   recovery phrase, exactly when that handle's list is no longer than the one the revoked device was
   left with. After a rotation these are the handles that have not taken up the new list.
   */
  lemma RevokedReadsWriteIff(ss: seq<Sys>, acts: seq<Action>, m: nat, k: nat, n: nat, t: Uuid, d: Uuid, h: nat,
                             entry: Uuid)
    requires Runs.Run(ss, acts) && m <= n < |ss| && k < |ss|
    requires t in ss[m].devs && RelayRuns.IsRevoked(ss[m].relay, t)
    requires forall j: nat {:trigger acts[j]} | m <= j < n :: !PhraseUsed(ss[j], acts[j], t)
    requires d in ss[k].devs && h in ss[k].devs[d].dir.handles && CanAppend(ss[k].devs[d].dir.handles[h])
    requires ss[k].devs[d].dir.handles[h].pending.value.shareId == NIL
    ensures t in ss[n].devs
    ensures var me := ss[k].devs[d].dir.handles[h];
            Opens(ss[n].devs[t].dir.disk.ring, SealedFrame(me, entry))
            <==> |ListOf(me.ring, NIL)| <= |DefaultList(ss[m], t)|
  {
    RevokedListNeverChanges(ss, acts, m, n, t);
    ReadsWriteIff(ss, acts, k, n, t, d, h, entry);
  }

  lemma NotHeld(ring: Ring, f: Frame)
    requires ChainRing(ring) && |ListOf(ring, f.blob.key.share)| <= f.blob.key.serial
    ensures !Opens(ring, f)
  {
    forall s | s in ring ensures f.blob.key !in ring[s] {
      assert ChainList(s, ring[s]);
    }
  }

  // ---- a member removed from a named share ------------------------------------------------

  predicate ShortOffers(p: Phase, share: Uuid, n: nat) {
    p.Healing? ==> forall o | o in p.todo && o.share == share :: |o.keys| < n
  }

  predicate ShortList(dev: Dev, share: Uuid, n: nat) {
    |ListOf(dev.dir.disk.ring, share)| < n && ShortOffers(dev.phase, share, n)
  }

  /** The device is no member, and neither holds nor was offered `n` keys of the share. */
  ghost predicate ShutOut(s: Sys, t: Uuid, share: Uuid, n: nat) {
    && share != NIL && 0 < n
    && (t in s.devs ==> ShortList(s.devs[t], share, n))
    && (share, t) !in s.relay.members
    && share in s.minted && n <= s.minted[share]
  }

  /** No action of the device itself gets it a longer list: it may not rotate from a list that is not the newest. */
  lemma OwnActKeepsShut(s: Sys, t: Uuid, op: DevOp, share: Uuid, n: nat)
    requires KeysInv(s) && t in s.devs && ShutOut(s, t, share, n) && Enabled(s, Act(t, op))
    ensures ShortList(DevNext(s.devs[t], s.relay, t, op), share, n)
  {
    var dev := s.devs[t];
    assert DevKeys(dev);
    DirStep(dev, s.relay, t, op);
    var touch := TouchOf(dev, s.relay, t, op);
    if touch.Touched? {
      LocalFrame(dev.dir, touch.h, touch.op);
    }
  }

  lemma MintedGrows(s: Sys, d: Uuid, op: DevOp, share: Uuid)
    requires d in s.devs && share in s.minted && FreshAndChained(s, d, op)
    ensures share in NewMinted(s, d, op) && s.minted[share] <= NewMinted(s, d, op)[share]
  {
  }

  lemma ActKeepsShut(s: Sys, s': Sys, d: Uuid, op: DevOp, t: Uuid, share: Uuid, n: nat)
    requires KeysInv(s) && ShutOut(s, t, share, n) && Enabled(s, Act(d, op)) && Acted(s, s', d, op)
    ensures ShutOut(s', t, share, n)
  {
    MintedGrows(s, d, op, share);
    if op.PushLog? {
      StoreAllFrame(s.relay, s.devs[d].phase.local);
    }
    if d == t {
      OwnActKeepsShut(s, t, op, share, n);
    }
  }

  /** A removed member stays out as long as nobody grants it the share again. */
  lemma StepKeepsShut(s: Sys, a: Action, t: Uuid, share: Uuid, n: nat)
    requires KeysInv(s) && ShutOut(s, t, share, n) && Enabled(s, a) && !GrantsTo(s, a, share, t)
    ensures ShutOut(Next(s, a), t, share, n)
  {
    match a
    case Join(d, list) =>
    case Act(d, op) =>
      ActFrame(s, d, op);
      ActKeepsShut(s, Next(s, a), d, op, t, share, n);
    case Request(d, now, body) =>
      RequestMembers(s, d, now, body);
      RelayFrame(s, a);
    case _ =>
      RelayFrame(s, a);
  }

  lemma {:induction false} ShutOutStays(ss: seq<Sys>, acts: seq<Action>, m: nat, n: nat, t: Uuid, share: Uuid,
                                        keys: nat)
    requires Runs.Run(ss, acts) && m <= n < |ss| && ShutOut(ss[m], t, share, keys)
    requires forall k: nat {:trigger acts[k]} | m <= k < n :: !GrantsTo(ss[k], acts[k], share, t)
    ensures ShutOut(ss[n], t, share, keys)
  {
    if m < n {
      ShutOutStays(ss, acts, m, n - 1, t, share, keys);
      Runs.RunKeepsInv(ss, acts, n - 1);
      assert Runs.StepAt(ss, acts, n - 1);
      assert !GrantsTo(ss[n - 1], acts[n - 1], share, t);
      StepKeepsShut(ss[n - 1], acts[n - 1], t, share, keys);
    }
  }

  /** Step `i` removes `t` from the share and rotates it to `list`, its newest list, which the sender holds. */
  ghost predicate RemovesMember(ss: seq<Sys>, acts: seq<Action>, i: nat, share: Uuid, list: seq<Key>, t: Uuid) {
    && Runs.Run(ss, acts) && i < |acts|
    && acts[i].Request? && acts[i].body.ShareRotate? && acts[i].body.share == share && t in acts[i].body.remove
    && acts[i].d in ss[i].devs && list == ListOf(ss[i].devs[acts[i].d].dir.disk.ring, share)
    && share in ss[i].minted && ss[i].minted[share] == |list|
    && Accepts(ss[i].relay, acts[i].d, acts[i].now, acts[i].body)
  }

  /** An accepted removal leaves no row of the removed device. */
  lemma RemovalDropsRow(r: Relay, d: Pub, now: int, body: Body, t: Pub)
    requires body.ShareRotate? && t in body.remove && Accepts(r, d, now, body)
    ensures (body.share, t) !in Answer(r, d, now, body).members
  {
    WithoutMembersKeys(r.members, body.share, body.remove);
    RewrappedKeys(WithoutMembers(r.members, body.share, body.remove), body.share, body.wrapped);
  }

  lemma RemovalShutsOut(ss: seq<Sys>, acts: seq<Action>, i: nat, share: Uuid, list: seq<Key>, t: Uuid)
    requires RemovesMember(ss, acts, i, share, list, t)
    requires t in ss[i].devs ==> ShortList(ss[i].devs[t], share, |list|)
    ensures ShutOut(ss[i + 1], t, share, |list|)
  {
    Runs.RunKeepsInv(ss, acts, i);
    assert Runs.StepAt(ss, acts, i);
    RelayFrame(ss[i], acts[i]);
    assert DevKeys(ss[i].devs[acts[i].d]);
    RemovalDropsRow(ss[i].relay, acts[i].d, acts[i].now, acts[i].body, t);
  }

  /**
   After an accepted removal, as long as nobody grants it the share again, the removed device opens
   no frame sealed under the new key of the share or any later one, with the keyring on its disk or
   in any of its handles, whether or not it had taken up the share's keys. Its own list is not the
   newest, so it cannot extend it (H4).
   */
  lemma RemovedMemberStaysOut(ss: seq<Sys>, acts: seq<Action>, i: nat, n: nat, share: Uuid, list: seq<Key>, t: Uuid,
                              f: Frame)
    requires RemovesMember(ss, acts, i, share, list, t) && i < n < |ss| && t in ss[n].devs
    requires t in ss[i].devs ==> ShortList(ss[i].devs[t], share, |list|)
    requires forall k: nat {:trigger acts[k]} | i < k < n :: !GrantsTo(ss[k], acts[k], share, t)
    requires f.blob.key.share == share && f.blob.key.serial >= |list| - 1
    ensures !Opens(ss[n].devs[t].dir.disk.ring, f)
    ensures forall h | h in ss[n].devs[t].dir.handles :: !Opens(ss[n].devs[t].dir.handles[h].ring, f)
  {
    RemovalShutsOut(ss, acts, i, share, list, t);
    ShutOutStays(ss, acts, i + 1, n, t, share, |list|);
    Runs.RunKeepsInv(ss, acts, n);
    assert DevKeys(ss[n].devs[t]);
    NotHeld(ss[n].devs[t].dir.disk.ring, f);
    HandlesHoldLess(ss[n].devs[t].dir, f);
  }

  /**
   What the removed member opens of what others write: a record of the share that any handle of any
   device appends, before the removal or after it, is opened by the removed member exactly when that
   handle's list is no longer than its own. So it opens nothing written by a handle that has taken up
   the new list, with the keyring on its disk or in any of its handles.
   */
  lemma RemovedReadsWriteIff(ss: seq<Sys>, acts: seq<Action>, i: nat, k: nat, n: nat, share: Uuid, list: seq<Key>,
                             t: Uuid, d: Uuid, h: nat, entry: Uuid)
    requires RemovesMember(ss, acts, i, share, list, t) && i < n < |ss| && t in ss[n].devs
    requires t in ss[i].devs ==> ShortList(ss[i].devs[t], share, |list|)
    requires forall j: nat {:trigger acts[j]} | i < j < n :: !GrantsTo(ss[j], acts[j], share, t)
    requires k < |ss| && d in ss[k].devs && h in ss[k].devs[d].dir.handles
    requires CanAppend(ss[k].devs[d].dir.handles[h])
    requires ss[k].devs[d].dir.handles[h].pending.value.shareId == share
    ensures |ShareList(ss[n], t, share)| < |list|
    ensures var me := ss[k].devs[d].dir.handles[h];
            Opens(ss[n].devs[t].dir.disk.ring, SealedFrame(me, entry))
            <==> |ListOf(me.ring, share)| <= |ShareList(ss[n], t, share)|
    ensures var me := ss[k].devs[d].dir.handles[h];
            list <= ListOf(me.ring, share) ==>
              && !Opens(ss[n].devs[t].dir.disk.ring, SealedFrame(me, entry))
              && forall g | g in ss[n].devs[t].dir.handles ::
                   !Opens(ss[n].devs[t].dir.handles[g].ring, SealedFrame(me, entry))
  {
    RemovalShutsOut(ss, acts, i, share, list, t);
    ShutOutStays(ss, acts, i + 1, n, t, share, |list|);
    ReadsWriteIff(ss, acts, k, n, t, d, h, entry);
    Runs.RunKeepsInv(ss, acts, n);
    assert DevKeys(ss[n].devs[t]);
    if list <= ListOf(ss[k].devs[d].dir.handles[h].ring, share) {
      HandlesHoldLess(ss[n].devs[t].dir, SealedFrame(ss[k].devs[d].dir.handles[h], entry));
    }
  }

  // ---- the members that remain --------------------------------------------------------------

  /** Step `i` rotates a named share to `list`. */
  ghost predicate RotatesShareTo(ss: seq<Sys>, acts: seq<Action>, i: nat, share: Uuid, list: seq<Key>) {
    && Runs.Run(ss, acts) && i < |acts|
    && acts[i].Request? && acts[i].body.ShareRotate? && acts[i].body.share == share
    && WrapsWholeList(acts[i].body, list)
    && Accepts(ss[i].relay, acts[i].d, acts[i].now, acts[i].body)
  }

  /** The relay holds this list of the share, wrapped for the member, and counts at least its epoch. */
  predicate HasMemberWrap(r: Relay, share: Uuid, p: Pub, list: seq<Key>) {
    && (share, p) in r.members && r.members[(share, p)] == Wrapped(p, list)
    && share in r.shareEpochs && r.shareEpochs[share] >= |list| - 1
  }

  lemma AnsweredWraps(r: Relay, d: Pub, now: int, body: Body, share: Uuid, p: Pub, list: seq<Key>)
    requires body.ShareRotate? && body.share == share && WrapsWholeList(body, list) && Accepts(r, d, now, body)
    requires (share, p) in r.members && p !in body.remove && Listed(body, p)
    ensures HasMemberWrap(Answer(r, d, now, body), share, p, list)
  {
    var left := WithoutMembers(r.members, share, body.remove);
    WithoutMembersKeys(r.members, share, body.remove);
    RewrappedList(left, share, body.wrapped, p, list);
  }

  lemma {:induction false} RewrappedList(members: map<(Uuid, Pub), Wrapped>, share: Uuid, ws: seq<WrappedFor>, p: Pub,
                                         list: seq<Key>)
    requires (share, p) in members && exists w :: w in ws && w.device == p
    requires forall w | w in ws :: w.wrapped == Wrapped(w.device, list)
    ensures (share, p) in Rewrapped(members, share, ws) && Rewrapped(members, share, ws)[(share, p)] == Wrapped(p, list)
  {
    var front, last := ws[..|ws| - 1], ws[|ws| - 1];
    RewrappedKeys(members, share, front);
    assert ws == front + [last];
    if last.device != p {
      RewrappedList(members, share, front, p, list);
    }
  }

  /** An accepted rotation of a share leaves the new list with every listed member it does not remove. */
  lemma ShareRotationReachesRows(ss: seq<Sys>, acts: seq<Action>, i: nat, share: Uuid, list: seq<Key>)
    requires RotatesShareTo(ss, acts, i, share, list)
    ensures forall p | (share, p) in ss[i].relay.members && p !in acts[i].body.remove && Listed(acts[i].body, p) ::
              HasMemberWrap(ss[i + 1].relay, share, p, list)
    ensures forall p | p in acts[i].body.remove :: (share, p) !in ss[i + 1].relay.members
  {
    assert Runs.StepAt(ss, acts, i);
    var r, a := ss[i].relay, acts[i];
    assert ss[i + 1].relay == Answer(r, a.d, a.now, a.body);
    forall p | (share, p) in r.members && p !in a.body.remove && Listed(a.body, p)
      ensures HasMemberWrap(ss[i + 1].relay, share, p, list)
    {
      AnsweredWraps(r, a.d, a.now, a.body, share, p, list);
    }
    forall p | p in a.body.remove ensures (share, p) !in ss[i + 1].relay.members {
      RemovalDropsRow(r, a.d, a.now, a.body, p);
    }
  }

  /** The request replaces or drops the member's row of the share. */
  predicate Regrants(body: Body, share: Uuid, p: Pub) {
    match body
    case ShareGrant(granted, _, ws) => granted == share && exists w :: w in ws && w.device == p
    case ShareRotate(rotated, _, ws, gone) => rotated == share && (p in gone || exists w :: w in ws && w.device == p)
    case _ => false
  }

  ghost predicate RewrapsMember(s: Sys, a: Action, share: Uuid, p: Pub) {
    a.Request? && Accepts(s.relay, a.d, a.now, a.body) && Regrants(a.body, share, p)
  }

  lemma GrantKeepsRow(ms: map<(Uuid, Pub), Wrapped>, body: Body, share: Uuid, p: Pub)
    requires body.ShareGrant? && !Regrants(body, share, p) && (share, p) in ms
    ensures var after := WithMembers(ms, body.share, body.wrapped);
            (share, p) in after && after[(share, p)] == ms[(share, p)]
  {
    WithMembersKeys(ms, body.share, body.wrapped);
    assert forall i | 0 <= i < |body.wrapped| :: body.wrapped[i] in body.wrapped;
  }

  lemma RotationKeepsRow(ms: map<(Uuid, Pub), Wrapped>, body: Body, share: Uuid, p: Pub)
    requires body.ShareRotate? && !Regrants(body, share, p) && (share, p) in ms
    ensures var after := Rewrapped(WithoutMembers(ms, body.share, body.remove), body.share, body.wrapped);
            (share, p) in after && after[(share, p)] == ms[(share, p)]
  {
    WithoutMembersKeys(ms, body.share, body.remove);
    RewrappedKeys(WithoutMembers(ms, body.share, body.remove), body.share, body.wrapped);
    assert forall i | 0 <= i < |body.wrapped| :: body.wrapped[i] in body.wrapped;
  }

  /** A refused request leaves all rows as they are. */
  lemma RefusedKeepsRows(r: Relay, d: Uuid, now: int, body: Body)
    requires (body.ShareGrant? || body.ShareRotate?) && !Accepts(r, d, now, body)
    ensures Answer(r, d, now, body).members == r.members
  {
  }

  lemma AnswerKeepsRow(r: Relay, d: Uuid, now: int, body: Body, share: Uuid, p: Pub)
    requires body.Enroll? || body.Approve? || body.Revoke? || body.Rotate? || body.ShareGrant? || body.ShareRotate?
    requires !(Accepts(r, d, now, body) && Regrants(body, share, p)) && (share, p) in r.members
    ensures var ms := Answer(r, d, now, body).members; (share, p) in ms && ms[(share, p)] == r.members[(share, p)]
  {
    RequestEffect(r, d, now, body);
    if body.ShareGrant? || body.ShareRotate? {
      if !Accepts(r, d, now, body) {
        RefusedKeepsRows(r, d, now, body);
      } else if body.ShareGrant? {
        GrantKeepsRow(r.members, body, share, p);
      } else {
        RotationKeepsRow(r.members, body, share, p);
      }
    }
  }

  lemma MemberRowStays(s: Sys, a: Action, share: Uuid, p: Pub)
    requires Enabled(s, a) && !RewrapsMember(s, a, share, p) && (share, p) in s.relay.members
    ensures var ms := Next(s, a).relay.members; (share, p) in ms && ms[(share, p)] == s.relay.members[(share, p)]
  {
    match a
    case Request(d, now, body) =>
      AnswerKeepsRow(s.relay, d, now, body, share, p);
    case Act(d, op) =>
      ActFrame(s, d, op);
      if op.PushLog? {
        StoreAllFrame(s.relay, s.devs[d].phase.local);
      }
    case _ =>
  }

  lemma {:induction false} MemberWrapKept(ss: seq<Sys>, acts: seq<Action>, m: nat, n: nat, share: Uuid, p: Pub,
                                          list: seq<Key>)
    requires Runs.Run(ss, acts) && m <= n < |ss| && HasMemberWrap(ss[m].relay, share, p, list)
    requires forall k: nat {:trigger acts[k]} | m <= k < n :: !RewrapsMember(ss[k], acts[k], share, p)
    ensures HasMemberWrap(ss[n].relay, share, p, list)
  {
    if m < n {
      MemberWrapKept(ss, acts, m, n - 1, share, p, list);
      assert Runs.StepAt(ss, acts, n - 1);
      assert !RewrapsMember(ss[n - 1], acts[n - 1], share, p);
      MemberRowStays(ss[n - 1], acts[n - 1], share, p);
      ActionIsEvent(ss[n - 1], acts[n - 1]);
      RelayRuns.StepRaisesEpochs(ss[n - 1].relay, EventOf(ss[n - 1], acts[n - 1]));
    }
  }

  /** Every offer of the share that the device's round has still to take has at least the list. */
  ghost predicate OffersReach(s: Sys, p: Uuid, share: Uuid, list: seq<Key>) {
    && p in s.devs
    && (s.devs[p].phase.Healing? ==>
          forall o | o in s.devs[p].phase.todo && o.share == share :: list <= o.keys && o.epoch >= |list| - 1)
  }

  /** The device asks for its shares, and has their offers to take. */
  predicate Fetches(a: Action, p: Uuid) {
    a.Act? && a.d == p && a.op.FetchShares?
  }

  /** The offers fetched while the row is there have the list. */
  lemma FetchReaches(s: Sys, p: Uuid, offers: seq<Offer>, share: Uuid, list: seq<Key>)
    requires Enabled(s, Act(p, FetchShares(offers))) && HasMemberWrap(s.relay, share, p, list)
    ensures OffersReach(Next(s, Act(p, FetchShares(offers))), p, share, list)
  {
  }

  /** Until the next fetch they keep it. */
  lemma OffersStay(s: Sys, a: Action, p: Uuid, share: Uuid, list: seq<Key>)
    requires Enabled(s, a) && OffersReach(s, p, share, list) && !Fetches(a, p)
    ensures OffersReach(Next(s, a), p, share, list)
  {
    if a.Act? && a.d == p {
      ActFrame(s, p, a.op);
    } else {
      OtherDevicesStay(s, a, p);
    }
  }

  lemma {:induction false} OffersKept(ss: seq<Sys>, acts: seq<Action>, m: nat, n: nat, p: Uuid, share: Uuid,
                                      list: seq<Key>)
    requires Runs.Run(ss, acts) && m <= n < |ss| && OffersReach(ss[m], p, share, list)
    requires forall k: nat {:trigger acts[k]} | m <= k < n :: !Fetches(acts[k], p)
    ensures OffersReach(ss[n], p, share, list)
  {
    if m < n {
      OffersKept(ss, acts, m, n - 1, p, share, list);
      assert Runs.StepAt(ss, acts, n - 1);
      assert !Fetches(acts[n - 1], p);
      OffersStay(ss[n - 1], acts[n - 1], p, share, list);
    }
  }

  /** Taking an offer that has the list leaves the device holding at least the list, whatever it held. */
  lemma OfferTakesList(s: Sys, p: Uuid, share: Uuid, list: seq<Key>)
    requires KeysInv(s) && Enabled(s, Act(p, AbsorbNext)) && s.devs[p].phase.todo[0].share == share && list != []
    requires OffersReach(s, p, share, list)
    ensures p in Next(s, Act(p, AbsorbNext)).devs && list <= ShareList(Next(s, Act(p, AbsorbNext)), p, share)
  {
    var dev := s.devs[p];
    var o := dev.phase.todo[0];
    assert DevKeys(dev) && o in dev.phase.todo;
    var held := ListOf(dev.dir.disk.ring, share);
    assert ChainList(share, o.keys);
    PrefixOfChain(share, list, o.keys);
    if |o.keys| > |held| && (share !in dev.dir.disk.ring || o.epoch > |held| - 1) {
      LocalFrame(dev.dir, dev.phase.h, Grow(share, o.keys));
    } else {
      ChainsCompare(share, list, held);
    }
  }

  lemma OfferTakenAt(ss: seq<Sys>, acts: seq<Action>, n: nat, p: Uuid, share: Uuid, list: seq<Key>)
    requires Runs.Run(ss, acts) && n < |acts| && acts[n] == Act(p, AbsorbNext) && list != []
    requires OffersReach(ss[n], p, share, list)
    requires ss[n].devs[p].phase.Healing? && ss[n].devs[p].phase.todo != []
    requires ss[n].devs[p].phase.todo[0].share == share
    ensures p in ss[n + 1].devs && list <= ShareList(ss[n + 1], p, share)
  {
    Runs.RunKeepsInv(ss, acts, n);
    assert Runs.StepAt(ss, acts, n);
    OfferTakesList(ss[n], p, share, list);
  }

  /**
   After an accepted rotation of a named share, a listed member that is not removed, that fetches its
   shares while its row is still there, and that comes to the share's offer, opens from then on
   everything sealed under any key up to the new one.
   */
  lemma ListedMemberReads(ss: seq<Sys>, acts: seq<Action>, i: nat, m: nat, n: nat, k: nat, share: Uuid,
                          list: seq<Key>, p: Uuid)
    requires RotatesShareTo(ss, acts, i, share, list) && i < m < n < k < |ss|
    requires (share, p) in ss[i].relay.members && p !in acts[i].body.remove && Listed(acts[i].body, p)
    requires forall j: nat {:trigger acts[j]} | i < j < m :: !RewrapsMember(ss[j], acts[j], share, p)
    requires Fetches(acts[m], p)
    requires forall j: nat {:trigger acts[j]} | m < j < n :: !Fetches(acts[j], p)
    requires acts[n] == Act(p, AbsorbNext) && p in ss[n].devs && ss[n].devs[p].phase.Healing?
    requires ss[n].devs[p].phase.todo != [] && ss[n].devs[p].phase.todo[0].share == share
    ensures ReadsUnder(ss[k], p, list)
  {
    ShareRotationReachesRows(ss, acts, i, share, list);
    MemberWrapKept(ss, acts, i + 1, m, share, p, list);
    assert Runs.StepAt(ss, acts, m);
    FetchReaches(ss[m], p, acts[m].op.offers, share, list);
    OffersKept(ss, acts, m + 1, n, p, share, list);
    OfferTakenAt(ss, acts, n, p, share, list);
    HeldListStays(ss, acts, n + 1, k, share, list, p);
  }
}
