/**
 One sync round: heal missing keys, push, rewind after a new grant, pull, apply, advance the
 cursor. Beside its own result each method returns a trace of the device steps of module
 Protocol that it took, so whatever holds over runs of the system holds of these rounds.
 A round here runs without other writers in between; interleavings are module Protocol's.
 */
module Sync {
  import opened Wrappers
  import opened Records
  import opened Merging
  import opened Keyrings
  import opened VaultSpec
  import opened RelaySpec
  import opened Protocol
  import opened ProtocolWorld
  import opened VaultErrors
  import Vault
  import RelayServer

  datatype SyncError =
    | Refused(status: Status)
    | CannotUnwrap
    | Storage(why: VaultError)

  // ---- traces of device steps --------------------------------------------------------------

  /** The device and the relay at one moment. */
  datatype At = At(dev: Dev, relay: Relay)

  datatype Trace = Trace(states: seq<At>, ops: seq<DevOp>)

  ghost function After(p: At, d: Pub, op: DevOp): At
    requires DevEnabled(p.dev, p.relay, d, op)
  {
    At(DevNext(p.dev, p.relay, d, op), if op.PushLog? then StoreAll(p.relay, p.dev.phase.local) else p.relay)
  }

  /** The steps a round is made of. */
  predicate RoundOp(op: DevOp) {
    !op.Local? && !op.CreateShare? && !op.RotateKey? && !op.Abort?
  }

  ghost predicate StepsTo(p: At, d: Pub, op: DevOp, q: At) {
    RoundOp(op) && DevEnabled(p.dev, p.relay, d, op) && q == After(p, d, op)
  }

  ghost predicate IsTrace(tr: Trace, d: Pub) {
    && |tr.states| == |tr.ops| + 1
    && (forall i {:trigger tr.ops[i]} | 0 <= i < |tr.ops| :: StepsTo(tr.states[i], d, tr.ops[i], tr.states[i + 1]))
  }

  ghost function Last(tr: Trace): At
    requires tr.states != []
  {
    tr.states[|tr.states| - 1]
  }

  ghost function Then(tr: Trace, d: Pub, op: DevOp): Trace
    requires tr.states != [] && DevEnabled(Last(tr).dev, Last(tr).relay, d, op)
  {
    Trace(tr.states + [After(Last(tr), d, op)], tr.ops + [op])
  }

  lemma ThenIsTrace(tr: Trace, d: Pub, op: DevOp)
    requires IsTrace(tr, d) && RoundOp(op) && DevEnabled(Last(tr).dev, Last(tr).relay, d, op)
    ensures IsTrace(Then(tr, d, op), d) && Last(Then(tr, d, op)) == After(Last(tr), d, op)
  {
    var tr' := Then(tr, d, op);
    forall i | 0 <= i < |tr'.ops| ensures StepsTo(tr'.states[i], d, tr'.ops[i], tr'.states[i + 1]) {
      if i < |tr.ops| {
        assert StepsTo(tr.states[i], d, tr.ops[i], tr.states[i + 1]);
      }
    }
  }

  /** The trace's last moment shows the vault, which has one open handle, and the relay as they are. */
  ghost predicate Shows(tr: Trace, d: Pub, w: View, r: Relay) {
    && IsTrace(tr, d)
    && Last(tr).relay == r
    && Last(tr).dev.dir.disk == w.disk
    && Last(tr).dev.dir.handles == map[0 := w.me]
    && w.me.ring == w.disk.ring && w.me.pending.None?
  }

  ghost function PhaseOf(tr: Trace): Phase
    requires tr.states != []
  {
    Last(tr).dev.phase
  }

  /** The later trace goes on from the earlier one. */
  ghost predicate Continues(tr: Trace, tr': Trace) {
    tr.states <= tr'.states
  }

  lemma ContinuesThen(a: Trace, b: Trace, c: Trace)
    requires Continues(a, b) && Continues(b, c)
    ensures Continues(a, c)
  {
  }

  function Ask(d: Pub, now: int, body: Body): Signed {
    Signed(d, Sig(d, now, body), now, body)
  }

  // ---- requests ----------------------------------------------------------------------------

  /** The memberships of this device. */
  method AskShares(relay: RelayServer.Server, d: Pub, now: int) returns (r: Result<map<Uuid, Membership>, SyncError>)
    ensures r == if CanSync(relay.Tables(), d) then Ok(MembershipsOf(relay.Tables(), d)) else Err(Refused(Forbidden))
  {
    var reply := relay.HandleShares(now, Ask(d, now, GetShares));
    if reply.Rejected? {
      return Err(Refused(reply.status));
    }
    return Ok(reply.memberships);
  }

  /** The rows past `since` and the head to advance the cursor to. */
  method AskPull(relay: RelayServer.Server, d: Pub, now: int, since: nat)
    returns (r: Result<(seq<EntryRow>, nat), SyncError>)
    ensures r == if CanSync(relay.Tables(), d)
                 then Ok((PullRows(relay.Tables(), relay.entries, d, since), MaxNat(Head(relay.Tables()), since)))
                 else Err(Refused(Forbidden))
  {
    var reply := relay.HandlePull(now, Ask(d, now, Pull(since)));
    if reply.Rejected? {
      return Err(Refused(reply.status));
    }
    return Ok((reply.rows, reply.head));
  }

  /** Sends entries; returns how many were new to the relay. */
  method AskPush(relay: RelayServer.Server, d: Pub, now: int, es: seq<TaggedFrame>) returns (r: Result<nat, SyncError>)
    modifies relay
    ensures r.Ok? <==> CanSync(old(relay.Tables()), d)
    ensures r.Ok? ==> relay.Tables() == StoreAll(old(relay.Tables()), es)
    ensures r.Ok? ==> r.value == |relay.entries| - |old(relay.entries)|
    ensures r.Err? ==> relay.Tables() == old(relay.Tables())
  {
    StoreAllStores(relay.Tables(), es);
    var reply := relay.HandlePush(now, Ask(d, now, Push(es)));
    if reply.Rejected? {
      return Err(Refused(reply.status));
    }
    return Ok(reply.stored);
  }

  // ---- healing -----------------------------------------------------------------------------

  /** A list wrapped for this device that is not empty. */
  predicate Unwraps(w: Wrapped, d: Pub) {
    w.recipient == d && w.keys != []
  }

  predicate DefaultIsStale(ring: Ring, reply: Reply)
    requires reply.Wrapping?
  {
    reply.epoch > EpochOf(ring, NIL) && reply.list.Some?
  }

  function DefaultHealed(w: View, reply: Reply): View
    requires reply.Wrapping?
  {
    if DefaultIsStale(w.me.ring, reply) then Absorbed(w, NIL, reply.list.value.keys) else w
  }

  /** Absorbs the default share's re-wrapped list when the relay's epoch is ahead. */
  method HealDefaultShare(v: Vault.Vault, relay: RelayServer.Server, d: Pub, now: int)
    returns (r: Result<(), SyncError>)
    requires v.Valid()
    modifies v, v.dir
    ensures v.Valid()
    ensures r.Ok? <==> var reply := DoWrapped(relay.Tables(), d).reply;
                       reply.Wrapping? && (DefaultIsStale(old(v.ring), reply) ==> Unwraps(reply.list.value, d))
    ensures r.Ok? ==> v.Now() == DefaultHealed(old(v.Now()), DoWrapped(relay.Tables(), d).reply)
    ensures r.Err? ==> v.Now() == old(v.Now())
  {
    var reply := relay.HandleWrapped(now, Ask(d, now, GetWrapped));
    if reply.Rejected? {
      return Err(Refused(reply.status));
    }
    var held := v.ShareEpoch(NIL);
    if reply.epoch > held && reply.list.Some? {
      if reply.list.value.recipient != d {
        return Err(CannotUnwrap);
      }
      var absorbed := v.AbsorbShareKey(NIL, reply.list.value.keys);
      if absorbed.Err? {
        return Err(Storage(absorbed.error));
      }
    }
    return Ok(());
  }

  /** The heal of the default share is one device step. */
  lemma DefaultHealStep(tr: Trace, d: Pub, w: View, r: Relay) returns (tr': Trace)
    requires Shows(tr, d, w, r) && PhaseOf(tr) == Healing(0, {}, []) && DoWrapped(r, d).reply.Wrapping?
    requires DefaultIsStale(w.me.ring, DoWrapped(r, d).reply) ==> Unwraps(DoWrapped(r, d).reply.list.value, d)
    ensures Shows(tr', d, DefaultHealed(w, DoWrapped(r, d).reply), r) && Continues(tr, tr')
    ensures PhaseOf(tr') == Healing(0, {}, [])
  {
    assert Absorb(w.me.ring, NIL, []) == w.me.ring || NIL !in w.me.ring;
    ThenIsTrace(tr, d, HealDefault);
    tr' := Then(tr, d, HealDefault);
  }

  predicate NeedsKeys(ring: Ring, share: Uuid, m: Membership) {
    share !in ring || m.epoch > EpochOf(ring, share)
  }

  function OfferTaken(w: View, share: Uuid, m: Membership): View {
    if NeedsKeys(w.me.ring, share, m) then Absorbed(w, share, m.wrapped.keys) else w
  }

  /** Absorbs the list of one membership row if it is needed; tells whether the share is new to the device. */
  method AbsorbMembership(v: Vault.Vault, d: Pub, share: Uuid, m: Membership) returns (r: Result<bool, SyncError>)
    requires v.Valid()
    modifies v, v.dir
    ensures v.Valid()
    ensures r.Ok? <==> (NeedsKeys(old(v.ring), share, m) ==> Unwraps(m.wrapped, d))
    ensures r.Ok? ==> v.Now() == OfferTaken(old(v.Now()), share, m) && r.value == (share !in old(v.ring))
    ensures r.Err? ==> v.Now() == old(v.Now())
  {
    var had := v.HasShare(share);
    var held := v.ShareEpoch(share);
    if had && m.epoch <= held {
      return Ok(false);
    }
    if m.wrapped.recipient != d {
      return Err(CannotUnwrap);
    }
    var absorbed := v.AbsorbShareKey(share, m.wrapped.keys);
    if absorbed.Err? {
      return Err(Storage(absorbed.error));
    }
    return Ok(!had);
  }

  /** Taking one offer is the device steps that fetch it and absorb it, or none. */
  lemma OfferSteps(tr: Trace, d: Pub, w: View, r: Relay, share: Uuid) returns (tr': Trace)
    requires Shows(tr, d, w, r) && PhaseOf(tr).Healing? && PhaseOf(tr).h == 0 && PhaseOf(tr).todo == []
    requires share != NIL && CanSync(r, d) && share in MembershipsOf(r, d)
    requires NeedsKeys(w.me.ring, share, MembershipsOf(r, d)[share]) ==> Unwraps(MembershipsOf(r, d)[share].wrapped, d)
    ensures Shows(tr', d, OfferTaken(w, share, MembershipsOf(r, d)[share]), r) && Continues(tr, tr')
    ensures PhaseOf(tr') == Healing(0, PhaseOf(tr).gained + (if share in w.me.ring then {} else {share}), [])
  {
    var m := MembershipsOf(r, d)[share];
    if !NeedsKeys(w.me.ring, share, m) {
      assert PhaseOf(tr).gained + {} == PhaseOf(tr).gained;
      return tr;
    }
    var offer := Offer(share, m.epoch, m.wrapped.keys);
    FetchStep(tr, d, w, r, offer);
    var fetched := Then(tr, d, FetchShares([offer]));
    AbsorbStep(fetched, d, w, r, offer);
    tr' := Then(fetched, d, AbsorbNext);
  }

  lemma FetchStep(tr: Trace, d: Pub, w: View, r: Relay, o: Offer)
    requires Shows(tr, d, w, r) && PhaseOf(tr).Healing? && PhaseOf(tr).h == 0
    requires CanSync(r, d) && OffersAreRows(r, d, [o])
    ensures Shows(Then(tr, d, FetchShares([o])), d, w, r)
    ensures PhaseOf(Then(tr, d, FetchShares([o]))) == Healing(0, PhaseOf(tr).gained, [o])
  {
    ThenIsTrace(tr, d, FetchShares([o]));
  }

  lemma AbsorbStep(tr: Trace, d: Pub, w: View, r: Relay, o: Offer)
    requires Shows(tr, d, w, r) && PhaseOf(tr).Healing? && PhaseOf(tr).h == 0 && PhaseOf(tr).todo == [o]
    requires o.keys != [] && NeedsKeys(w.me.ring, o.share, Membership(o.epoch, Wrapped(d, o.keys)))
    ensures Shows(Then(tr, d, AbsorbNext), d, Absorbed(w, o.share, o.keys), r)
    ensures PhaseOf(Then(tr, d, AbsorbNext)) ==
              Healing(0, PhaseOf(tr).gained + (if o.share in w.me.ring then {} else {o.share}), [])
  {
    ThenIsTrace(tr, d, AbsorbNext);
  }

  /** The list a membership row asks for is held afterwards; a list that is not needed is left alone. */
  predicate TookOffer(before: Ring, after: Ring, share: Uuid, m: Membership) {
    && share in after
    && ListOf(after, share) ==
         if NeedsKeys(before, share, m) then ListOf(Absorb(before, share, m.wrapped.keys), share)
         else ListOf(before, share)
  }

  /**
   After a heal the device holds at least the list its row offers, when the row's epoch is not behind
   the list and the list continues the device's own.
   */
  lemma OfferIsHeld(before: Ring, after: Ring, share: Uuid, m: Membership)
    requires TookOffer(before, after, share, m) && m.epoch >= |m.wrapped.keys| - 1
    requires |m.wrapped.keys| <= |ListOf(before, share)| ==> m.wrapped.keys <= ListOf(before, share)
    ensures m.wrapped.keys <= ListOf(after, share)
  {
  }

  predicate SameList(before: Ring, after: Ring, share: Uuid) {
    (share in before <==> share in after) && ListOf(before, share) == ListOf(after, share)
  }

  lemma TakenRing(w: View, share: Uuid, m: Membership)
    requires NeedsKeys(w.me.ring, share, m) ==> m.wrapped.keys != []
    ensures var w' := OfferTaken(w, share, m);
            && TookOffer(w.me.ring, w'.me.ring, share, m)
            && (forall s | s != share :: SameList(w.me.ring, w'.me.ring, s))
            && w'.disk.log == w.disk.log && w'.me.meta == w.me.meta && w'.disk.meta == w.disk.meta
  {
  }

  /** The rows in `done` are taken; every other named share's list is as it was. */
  ghost predicate TookRows(start: Ring, ring: Ring, ms: map<Uuid, Membership>, done: set<Uuid>) {
    && (forall s | s in done && s in ms && s != NIL :: TookOffer(start, ring, s, ms[s]))
    && (forall s | s !in done && s != NIL :: SameList(start, ring, s))
  }

  /** Some row in `done` is of a named share that was not held. */
  ghost predicate GainsFrom(start: Ring, ms: map<Uuid, Membership>, done: set<Uuid>) {
    exists s :: s in done && s in ms && s != NIL && s !in start
  }

  lemma OneMoreRow(start: Ring, w: View, ms: map<Uuid, Membership>, done: set<Uuid>, share: Uuid)
    requires TookRows(start, w.me.ring, ms, done) && share in ms && share !in done && share != NIL
    requires NeedsKeys(w.me.ring, share, ms[share]) ==> ms[share].wrapped.keys != []
    ensures TookRows(start, OfferTaken(w, share, ms[share]).me.ring, ms, done + {share})
    ensures GainsFrom(start, ms, done + {share}) <==> GainsFrom(start, ms, done) || share !in w.me.ring
  {
    TakenRing(w, share, ms[share]);
    assert SameList(start, w.me.ring, share);
    if GainsFrom(start, ms, done) {
      var s :| s in done && s in ms && s != NIL && s !in start;
      assert s in done + {share};
    }
    if share !in w.me.ring {
      assert share in done + {share};
    }
  }

  lemma NoRowYet(start: Ring, ms: map<Uuid, Membership>)
    ensures TookRows(start, start, ms, {}) && !GainsFrom(start, ms, {})
  {
  }

  lemma DefaultRow(start: Ring, ring: Ring, ms: map<Uuid, Membership>, done: set<Uuid>)
    requires TookRows(start, ring, ms, done)
    ensures TookRows(start, ring, ms, done + {NIL})
    ensures GainsFrom(start, ms, done + {NIL}) <==> GainsFrom(start, ms, done)
  {
    if GainsFrom(start, ms, done) {
      var s :| s in done && s in ms && s != NIL && s !in start;
      assert s in done + {NIL};
    }
  }

  ghost predicate BetweenOffers(p: Phase) {
    p.Healing? && p.h == 0 && p.todo == []
  }

  /** If the device lacks the share or is behind on it, the list in its row unwraps for it and is not empty. */
  predicate RowUnwraps(held: Ring, ms: map<Uuid, Membership>, share: Uuid, d: Pub)
    requires share in ms
  {
    share != NIL && (share !in held || ms[share].epoch > EpochOf(held, share)) ==>
      ms[share].wrapped.recipient == d && ms[share].wrapped.keys != []
  }

  lemma SameNeed(start: Ring, ring: Ring, share: Uuid, m: Membership)
    requires SameList(start, ring, share)
    ensures NeedsKeys(start, share, m) == NeedsKeys(ring, share, m)
  {
  }

  /** Takes one membership row; the default share's is none. */
  method TakeRow(v: Vault.Vault, relay: RelayServer.Server, d: Pub, ms: map<Uuid, Membership>, share: Uuid,
                 ghost start: Ring, ghost done: set<Uuid>, ghost tr: Trace)
    returns (r: Result<bool, SyncError>, ghost tr': Trace)
    requires v.Valid() && Shows(tr, d, v.Now(), relay.Tables()) && BetweenOffers(PhaseOf(tr))
    requires CanSync(relay.Tables(), d) && ms == MembershipsOf(relay.Tables(), d)
    requires share in ms && share !in done && TookRows(start, v.ring, ms, done)
    modifies v, v.dir
    ensures v.Valid() && Shows(tr', d, v.Now(), relay.Tables()) && Continues(tr, tr')
    ensures v.dir.log == old(v.dir.log) && v.meta == old(v.meta) && v.dir.meta == old(v.dir.meta)
    ensures v.state == old(v.state)
    ensures r.Ok? <==> RowUnwraps(start, ms, share, d)
    ensures r.Ok? ==> BetweenOffers(PhaseOf(tr'))
    ensures r.Ok? ==> PhaseOf(tr').gained == PhaseOf(tr).gained + (if r.value then {share} else {})
    ensures r.Ok? ==> TookRows(start, v.ring, ms, done + {share})
    ensures r.Ok? ==> (GainsFrom(start, ms, done + {share}) <==> GainsFrom(start, ms, done) || r.value)
  {
    tr' := tr;
    if share == NIL {
      DefaultRow(start, v.ring, ms, done);
      return Ok(false), tr';
    }
    SameNeed(start, v.ring, share, ms[share]);
    r := AbsorbMembership(v, d, share, ms[share]);
    if r.Ok? {
      OneMoreRow(start, old(v.Now()), ms, done, share);
      TakenRing(old(v.Now()), share, ms[share]);
      tr' := OfferSteps(tr, d, old(v.Now()), relay.Tables(), share);
    }
  }

  /** Takes the named shares' membership rows one by one; tells whether one was new to the device. */
  method TakeRows(v: Vault.Vault, relay: RelayServer.Server, d: Pub, ms: map<Uuid, Membership>, ghost tr: Trace)
    returns (r: Result<bool, SyncError>, ghost tr': Trace)
    requires v.Valid() && Shows(tr, d, v.Now(), relay.Tables()) && PhaseOf(tr) == Healing(0, {}, [])
    requires CanSync(relay.Tables(), d) && ms == MembershipsOf(relay.Tables(), d)
    modifies v, v.dir
    ensures v.Valid() && Shows(tr', d, v.Now(), relay.Tables()) && Continues(tr, tr')
    ensures v.dir.log == old(v.dir.log) && v.meta == old(v.meta) && v.dir.meta == old(v.dir.meta)
    ensures v.state == old(v.state)
    ensures r.Ok? <==> forall s | s in ms :: RowUnwraps(old(v.ring), ms, s, d)
    ensures r.Ok? ==> BetweenOffers(PhaseOf(tr')) && (r.value <==> PhaseOf(tr').gained != {})
    ensures r.Ok? ==> TookRows(old(v.ring), v.ring, ms, ms.Keys) && (r.value <==> GainsFrom(old(v.ring), ms, ms.Keys))
  {
    var todo, gained := ms.Keys, false;
    ghost var done: set<Uuid> := {};
    NoRowYet(v.ring, ms);
    tr' := tr;
    while todo != {}
      invariant v.Valid() && Shows(tr', d, v.Now(), relay.Tables()) && Continues(tr, tr')
      invariant v.dir.log == old(v.dir.log) && v.meta == old(v.meta) && v.dir.meta == old(v.dir.meta)
      invariant v.state == old(v.state)
      invariant BetweenOffers(PhaseOf(tr')) && (gained <==> PhaseOf(tr').gained != {})
      invariant done + todo == ms.Keys && done !! todo
      invariant forall s | s in done :: RowUnwraps(old(v.ring), ms, s, d)
      invariant TookRows(old(v.ring), v.ring, ms, done) && (gained <==> GainsFrom(old(v.ring), ms, done))
      decreases todo
    {
      var share :| share in todo;
      var took, next := TakeRow(v, relay, d, ms, share, old(v.ring), done, tr');
      ContinuesThen(tr, tr', next);
      todo, done, tr' := todo - {share}, done + {share}, next;
      if took.Err? {
        return Err(took.error), tr';
      }
      gained := gained || took.value;
    }
    assert done == ms.Keys;
    return Ok(gained), tr';
  }

  lemma DefaultHealRing(w: View, reply: Reply)
    requires reply.Wrapping?
    ensures var w' := DefaultHealed(w, reply);
            && (forall s | s != NIL :: SameList(w.me.ring, w'.me.ring, s))
            && w'.disk.log == w.disk.log && w'.me.meta == w.me.meta && w'.disk.meta == w.disk.meta
  {
  }

  lemma FromHealed(start: Ring, ring: Ring, ring': Ring, ms: map<Uuid, Membership>)
    requires forall s | s != NIL :: SameList(start, ring, s)
    requires TookRows(ring, ring', ms, ms.Keys)
    ensures TookRows(start, ring', ms, ms.Keys) && (GainsFrom(start, ms, ms.Keys) <==> GainsFrom(ring, ms, ms.Keys))
  {
    forall s | s !in ms.Keys && s != NIL ensures SameList(start, ring', s) {
      assert SameList(start, ring, s) && SameList(ring, ring', s);
    }
    forall s | s in ms && s != NIL ensures TookOffer(start, ring', s, ms[s]) {
      assert TookOffer(ring, ring', s, ms[s]) && SameList(start, ring, s);
    }
    if GainsFrom(start, ms, ms.Keys) {
      var s :| s in ms.Keys && s in ms && s != NIL && s !in start;
      assert SameList(start, ring, s);
    }
    if GainsFrom(ring, ms, ms.Keys) {
      var s :| s in ms.Keys && s in ms && s != NIL && s !in ring;
      assert SameList(start, ring, s);
    }
  }

  /** If the vault's epoch is ahead and a list is there for the device, it unwraps for it and is not empty. */
  predicate DefaultUnwraps(t: Relay, held: Ring, d: Pub) {
    d in t.devices && t.devices[d].wrapped.Some? && t.vault.Some? && t.vault.value.epoch > EpochOf(held, NIL) ==>
      t.devices[d].wrapped.value.recipient == d && t.devices[d].wrapped.value.keys != []
  }

  lemma SameNeeds(start: Ring, ring: Ring, ms: map<Uuid, Membership>, d: Pub)
    requires forall s | s != NIL :: SameList(start, ring, s)
    ensures (forall s | s in ms :: RowUnwraps(start, ms, s, d)) <==> (forall s | s in ms :: RowUnwraps(ring, ms, s, d))
  {
    forall s | s in ms ensures RowUnwraps(start, ms, s, d) == RowUnwraps(ring, ms, s, d) {
      if s != NIL {
        assert SameList(start, ring, s);
        SameNeed(start, ring, s, ms[s]);
      }
    }
  }

  /** Absorbs every key list this device is missing; tells whether it gained a share. */
  method HealShares(v: Vault.Vault, relay: RelayServer.Server, d: Pub, now: int, ghost tr: Trace)
    returns (r: Result<bool, SyncError>, ghost tr': Trace)
    requires v.Valid() && Shows(tr, d, v.Now(), relay.Tables()) && PhaseOf(tr) == Healing(0, {}, [])
    modifies v, v.dir
    ensures v.Valid() && Shows(tr', d, v.Now(), relay.Tables()) && Continues(tr, tr')
    ensures v.dir.log == old(v.dir.log) && v.meta == old(v.meta) && v.dir.meta == old(v.dir.meta)
    ensures v.state == old(v.state)
    ensures r.Ok? ==> BetweenOffers(PhaseOf(tr')) && (r.value <==> PhaseOf(tr').gained != {})
    ensures r.Ok? <==>
              var t, held := old(relay.Tables()), old(v.ring);
              && CanSync(t, d)
              && DefaultUnwraps(t, held, d)
              && (forall s | s in MembershipsOf(t, d) :: RowUnwraps(held, MembershipsOf(t, d), s, d))
    ensures r.Ok? ==> var ms := MembershipsOf(relay.Tables(), d);
                      TookRows(old(v.ring), v.ring, ms, ms.Keys) && (r.value <==> GainsFrom(old(v.ring), ms, ms.Keys))
  {
    tr' := tr;
    var healed := HealDefaultShare(v, relay, d, now);
    if healed.Err? {
      return Err(healed.error), tr';
    }
    DefaultHealRing(old(v.Now()), DoWrapped(relay.Tables(), d).reply);
    tr' := DefaultHealStep(tr, d, old(v.Now()), relay.Tables());
    var shares := AskShares(relay, d, now);
    if shares.Err? {
      return Err(shares.error), tr';
    }
    ghost var ring := v.ring;
    SameNeeds(old(v.ring), ring, shares.value, d);
    r, tr' := TakeRows(v, relay, d, shares.value, tr');
    if r.Ok? {
      FromHealed(old(v.ring), ring, v.ring, shares.value);
    }
  }

  // ---- the rest of a round ------------------------------------------------------------------

  lemma PushSteps(tr: Trace, d: Pub, w: View, r: Relay) returns (tr': Trace)
    requires Shows(tr, d, w, r) && PhaseOf(tr).Healing? && PhaseOf(tr).h == 0 && PhaseOf(tr).todo == []
    requires CanSync(r, d)
    ensures var local := TaggedLog(w.me.ring, w.disk.log);
            && Shows(tr', d, w, StoreAll(r, local)) && Continues(tr, tr')
            && PhaseOf(tr') == Pushed(0, PhaseOf(tr).gained, IdsOf(local), false)
  {
    ThenIsTrace(tr, d, ReadLog);
    var read := Then(tr, d, ReadLog);
    ThenIsTrace(read, d, PushLog);
    tr' := Then(read, d, PushLog);
  }

  lemma RewindStep(tr: Trace, d: Pub, w: View, r: Relay) returns (tr': Trace)
    requires Shows(tr, d, w, r) && PhaseOf(tr).Pushed? && PhaseOf(tr).h == 0 && PhaseOf(tr).gained != {}
    requires !PhaseOf(tr).rewound
    ensures Shows(tr', d, CursorReset(w), r) && Continues(tr, tr')
    ensures PhaseOf(tr') == Pushed(0, PhaseOf(tr).gained, PhaseOf(tr).have, true)
  {
    ThenIsTrace(tr, d, Rewind);
    tr' := Then(tr, d, Rewind);
  }

  lemma PullStep(tr: Trace, d: Pub, w: View, r: Relay) returns (tr': Trace)
    requires Shows(tr, d, w, r) && PhaseOf(tr).Pushed? && PhaseOf(tr).h == 0 && CanSync(r, d)
    requires PhaseOf(tr).gained == {} || PhaseOf(tr).rewound
    ensures Shows(tr', d, w, r) && Continues(tr, tr')
    ensures PhaseOf(tr') ==
              Applying(0, PhaseOf(tr).gained, PhaseOf(tr).have, FramesOf(PullRows(r, r.entries, d, w.me.meta.cursor)),
                       MaxNat(Head(r), w.me.meta.cursor))
  {
    ThenIsTrace(tr, d, PullPast);
    tr' := Then(tr, d, PullPast);
  }

  lemma ApplyStep(tr: Trace, d: Pub, w: View, r: Relay) returns (tr': Trace)
    requires Shows(tr, d, w, r) && PhaseOf(tr).Applying? && PhaseOf(tr).h == 0 && PhaseOf(tr).rest != []
    ensures var p := PhaseOf(tr);
            && Shows(tr', d, if p.rest[0].id in p.have then w else Applied(w, p.rest[0]), r) && Continues(tr, tr')
            && PhaseOf(tr') == Applying(0, p.gained, p.have, p.rest[1..], p.head)
  {
    ThenIsTrace(tr, d, ApplyNext);
    tr' := Then(tr, d, ApplyNext);
  }

  lemma FinishStep(tr: Trace, d: Pub, w: View, r: Relay) returns (tr': Trace)
    requires Shows(tr, d, w, r) && PhaseOf(tr).Applying? && PhaseOf(tr).h == 0 && PhaseOf(tr).rest == []
    ensures Shows(tr', d, CursorSet(w, PhaseOf(tr).head), r) && Continues(tr, tr') && PhaseOf(tr') == Idle
  {
    ThenIsTrace(tr, d, Finish);
    tr' := Then(tr, d, Finish);
  }

  lemma {:induction false} StoreAllStores(r: Relay, es: seq<TaggedFrame>)
    ensures r.entries <= StoreAll(r, es).entries
    ensures forall e | e in es :: Stored(StoreAll(r, es), e.frame.id)
    ensures StoreAll(r, es).devices == r.devices && StoreAll(r, es).members == r.members
  {
    if es != [] {
      var front, last := es[..|es| - 1], es[|es| - 1];
      StoreAllStores(r, front);
      var mid, r' := StoreAll(r, front), StoreAll(r, es);
      StoredStays(mid, r');
      if !Stored(mid, last.frame.id) {
        assert r'.entries[|mid.entries|].frame.id == last.frame.id;
      }
      assert es == front + [last];
    }
  }

  lemma PushedAll(r: Relay, ring: Ring, log: seq<Frame>)
    ensures LogStored(StoreAll(r, TaggedLog(ring, log)), log)
    ensures r.entries <= StoreAll(r, TaggedLog(ring, log)).entries
    ensures forall id :: id in IdsOf(TaggedLog(ring, log)) <==> HasFrameId(log, id)
  {
    var local := TaggedLog(ring, log);
    StoreAllStores(r, local);
    forall f | f in log ensures Stored(StoreAll(r, local), f.id) {
      var i :| 0 <= i < |log| && log[i] == f;
      assert local[i] in local;
    }
    forall id ensures id in IdsOf(local) <==> HasFrameId(log, id) {
      if HasFrameId(log, id) {
        var i :| 0 <= i < |log| && log[i].id == id;
        assert local[i] in local;
      }
      if id in IdsOf(local) {
        var t :| t in local && t.frame.id == id;
        var i :| 0 <= i < |local| && local[i] == t;
        assert log[i].id == id;
      }
    }
  }

  /** Every id of the rows is in the log. */
  ghost predicate RowsInLog(rows: seq<EntryRow>, log: seq<Frame>) {
    forall i | 0 <= i < |rows| :: HasFrameId(log, rows[i].frame.id)
  }

  lemma LongerLogHasIds(rows: seq<EntryRow>, log: seq<Frame>, log': seq<Frame>)
    requires log <= log'
    ensures RowsInLog(rows, log) ==> RowsInLog(rows, log')
    ensures forall id | HasFrameId(log, id) :: HasFrameId(log', id)
  {
    forall id | HasFrameId(log, id) ensures HasFrameId(log', id) {
      var i :| 0 <= i < |log| && log[i].id == id;
      assert log'[i].id == id;
    }
  }

  /** Applies one pulled row, or skips it when the push listed its id. */
  method ApplyRow(v: Vault.Vault, relay: RelayServer.Server, d: Pub, row: EntryRow, have: set<Uuid>, ghost tr: Trace)
    returns (applied: bool, ghost tr': Trace)
    requires v.Valid() && Shows(tr, d, v.Now(), relay.Tables())
    requires PhaseOf(tr).Applying? && PhaseOf(tr).h == 0 && PhaseOf(tr).have == have
    requires PhaseOf(tr).rest != [] && PhaseOf(tr).rest[0] == row.frame
    requires forall id | id in have :: HasFrameId(v.dir.log, id)
    modifies v, v.dir
    ensures v.Valid() && Shows(tr', d, v.Now(), relay.Tables()) && Continues(tr, tr') && v.ring == old(v.ring)
    ensures PhaseOf(tr') == Applying(0, PhaseOf(tr).gained, have, PhaseOf(tr).rest[1..], PhaseOf(tr).head)
    ensures applied <==> row.frame.id !in have
    ensures v.dir.log == old(v.dir.log) + (if applied then [row.frame] else []) && HasFrameId(v.dir.log, row.frame.id)
    ensures applied && Opens(v.ring, row.frame) ==> ShowsRecord(v.state, row.frame.blob.rec)
    ensures ShowsMore(old(v.state), v.state)
  {
    AppliedIsShown(v.Now(), row.frame);
    tr' := ApplyStep(tr, d, v.Now(), relay.Tables());
    applied := row.frame.id !in have;
    if applied {
      v.ApplyRemoteEntry(row.frame);
      assert v.dir.log[|old(v.dir.log)|].id == row.frame.id;
    }
  }

  /** Whatever of the rows is new to the device and opens shows in its memory. */
  ghost predicate RowsShown(rows: seq<EntryRow>, have: set<Uuid>, ring: Ring, state: State) {
    forall row | row in rows && row.frame.id !in have && Opens(ring, row.frame) ::
      ShowsRecord(state, row.frame.blob.rec)
  }

  lemma OneMoreShown(rows: seq<EntryRow>, i: nat, have: set<Uuid>, ring: Ring, start: State, state: State, later: State)
    requires i < |rows| && RowsShown(rows[..i], have, ring, state)
    requires ShowsMore(start, state) && ShowsMore(state, later)
    requires rows[i].frame.id !in have && Opens(ring, rows[i].frame) ==> ShowsRecord(later, rows[i].frame.blob.rec)
    ensures RowsShown(rows[..i + 1], have, ring, later) && ShowsMore(start, later)
  {
    assert rows[..i + 1] == rows[..i] + [rows[i]];
  }

  /** Applies the pulled rows whose ids the push did not list; counts them. */
  method ApplyRows(v: Vault.Vault, relay: RelayServer.Server, d: Pub, rows: seq<EntryRow>, have: set<Uuid>,
                   ghost tr: Trace)
    returns (pulled: nat, ghost tr': Trace)
    requires v.Valid() && Shows(tr, d, v.Now(), relay.Tables())
    requires PhaseOf(tr).Applying? && PhaseOf(tr).h == 0 && PhaseOf(tr).have == have
    requires PhaseOf(tr).rest == FramesOf(rows)
    requires forall id | id in have :: HasFrameId(v.dir.log, id)
    modifies v, v.dir
    ensures v.Valid() && Shows(tr', d, v.Now(), relay.Tables()) && Continues(tr, tr')
    ensures PhaseOf(tr') == Applying(0, PhaseOf(tr).gained, have, [], PhaseOf(tr).head)
    ensures old(v.dir.log) <= v.dir.log && pulled == |v.dir.log| - |old(v.dir.log)|
    ensures RowsInLog(rows, v.dir.log)
    ensures v.ring == old(v.ring)
    ensures RowsShown(rows, have, v.ring, v.state)
    ensures ShowsMore(old(v.state), v.state)
  {
    pulled, tr' := 0, tr;
    for i := 0 to |rows|
      invariant v.Valid() && Shows(tr', d, v.Now(), relay.Tables()) && Continues(tr, tr')
      invariant PhaseOf(tr') == Applying(0, PhaseOf(tr).gained, have, FramesOf(rows)[i..], PhaseOf(tr).head)
      invariant old(v.dir.log) <= v.dir.log && pulled == |v.dir.log| - |old(v.dir.log)|
      invariant forall id | id in have :: HasFrameId(v.dir.log, id)
      invariant RowsInLog(rows[..i], v.dir.log) && v.ring == old(v.ring)
      invariant RowsShown(rows[..i], have, v.ring, v.state)
      invariant ShowsMore(old(v.state), v.state)
    {
      ghost var log, before := v.dir.log, v.state;
      assert FramesOf(rows)[i..][0] == rows[i].frame;
      var applied, next := ApplyRow(v, relay, d, rows[i], have, tr');
      ContinuesThen(tr, tr', next);
      tr' := next;
      pulled := if applied then pulled + 1 else pulled;
      LongerLogHasIds(rows[..i], log, v.dir.log);
      OneMoreShown(rows, i, have, v.ring, old(v.state), before, v.state);
    }
    assert rows[..|rows|] == rows;
  }

  /** Every row the device may have past `since` is in its log. */
  ghost predicate PulledPast(r: Relay, d: Pub, since: nat, log: seq<Frame>) {
    forall row | row in r.entries && row.seqno > since && MayPull(r, d, row) :: HasFrameId(log, row.frame.id)
  }

  /** Every row the device may have past `since`, new to it and openable, shows in its memory. */
  ghost predicate PulledShows(r: Relay, d: Pub, since: nat, have: set<Uuid>, ring: Ring, state: State) {
    forall row | row in r.entries && row.seqno > since && MayPull(r, d, row) && row.frame.id !in have
                 && Opens(ring, row.frame) ::
      ShowsRecord(state, row.frame.blob.rec)
  }

  lemma RowsAreShown(r: Relay, d: Pub, since: nat, have: set<Uuid>, ring: Ring, state: State)
    requires RowsShown(PullRows(r, r.entries, d, since), have, ring, state)
    ensures PulledShows(r, d, since, have, ring, state)
  {
    PullReturnsExactly(r, r.entries, d, since);
  }

  lemma RowsArePulled(r: Relay, d: Pub, since: nat, log: seq<Frame>)
    requires RowsInLog(PullRows(r, r.entries, d, since), log)
    ensures PulledPast(r, d, since, log)
  {
    PullReturnsExactly(r, r.entries, d, since);
    var rows := PullRows(r, r.entries, d, since);
    forall row | row in r.entries && row.seqno > since && MayPull(r, d, row) ensures HasFrameId(log, row.frame.id) {
      var i :| 0 <= i < |rows| && rows[i] == row;
    }
  }

  /** The pull half of a round: rewind if a share was gained, pull, apply, advance the cursor. */
  method PullRound(v: Vault.Vault, relay: RelayServer.Server, d: Pub, now: int, have: set<Uuid>, gained: bool,
                   ghost tr: Trace)
    returns (r: Result<nat, SyncError>, ghost tr': Trace)
    requires v.Valid() && Shows(tr, d, v.Now(), relay.Tables()) && CanSync(relay.Tables(), d)
    requires PhaseOf(tr).Pushed? && PhaseOf(tr).h == 0 && PhaseOf(tr).have == have
    requires !PhaseOf(tr).rewound && (gained <==> PhaseOf(tr).gained != {})
    requires forall id | id in have :: HasFrameId(v.dir.log, id)
    modifies v, v.dir
    ensures v.Valid() && Shows(tr', d, v.Now(), relay.Tables()) && Continues(tr, tr')
    ensures r.Ok? && PhaseOf(tr') == Idle
    ensures old(v.dir.log) <= v.dir.log && r.value == |v.dir.log| - |old(v.dir.log)|
    ensures PulledPast(relay.Tables(), d, if gained then 0 else old(v.meta.cursor), v.dir.log)
    ensures PulledShows(relay.Tables(), d, if gained then 0 else old(v.meta.cursor), have, v.ring, v.state)
    ensures ShowsMore(old(v.state), v.state)
    ensures v.meta.cursor >= Head(relay.Tables()) && v.dir.meta == v.meta
    ensures v.ring == old(v.ring)
  {
    tr' := tr;
    if gained {
      tr' := RewindStep(tr', d, v.Now(), relay.Tables());
      v.ResetSyncCursor();
    }
    var since := v.meta.cursor;
    var reply := AskPull(relay, d, now, since);
    tr' := PullStep(tr', d, v.Now(), relay.Tables());
    var pulled: nat;
    pulled, tr' := ApplyRows(v, relay, d, reply.value.0, have, tr');
    RowsArePulled(relay.Tables(), d, since, v.dir.log);
    RowsAreShown(relay.Tables(), d, since, have, v.ring, v.state);
    tr' := FinishStep(tr', d, v.Now(), relay.Tables());
    v.SetSyncCursor(reply.value.1);
    return Ok(pulled), tr';
  }

  /** The push half of a round, which reads the log and sends all of it. */
  method PushRound(v: Vault.Vault, relay: RelayServer.Server, d: Pub, now: int, ghost tr: Trace)
    returns (stored: nat, have: set<Uuid>, ghost tr': Trace)
    requires v.Valid() && Shows(tr, d, v.Now(), relay.Tables()) && CanSync(relay.Tables(), d)
    requires BetweenOffers(PhaseOf(tr))
    modifies relay
    ensures v.Valid() && Shows(tr', d, v.Now(), relay.Tables()) && Continues(tr, tr')
    ensures PhaseOf(tr') == Pushed(0, PhaseOf(tr).gained, have, false)
    ensures forall id :: id in have <==> HasFrameId(v.dir.log, id)
    ensures relay.Tables() == StoreAll(old(relay.Tables()), TaggedLog(v.ring, v.dir.log))
    ensures LogStored(relay.Tables(), v.dir.log) && old(relay.entries) <= relay.entries
    ensures CanSync(relay.Tables(), d) && relay.members == old(relay.members)
    ensures stored == |relay.entries| - |old(relay.entries)|
  {
    var local := v.RawEntriesTagged();
    tr' := PushSteps(tr, d, v.Now(), relay.Tables());
    PushedAll(relay.Tables(), v.ring, v.dir.log);
    StoreAllStores(relay.Tables(), local);
    var pushed := AskPush(relay, d, now, local);
    stored, have := pushed.value, IdsOf(local);
  }

  lemma MorePulled(r: Relay, d: Pub, since: nat, more: nat, have: set<Uuid>, log: seq<Frame>, ring: Ring, state: State)
    requires PulledPast(r, d, since, log) && PulledShows(r, d, since, have, ring, state) && since <= more
    ensures PulledPast(r, d, more, log) && PulledShows(r, d, more, have, ring, state)
  {
  }

  ghost function LogIds(log: seq<Frame>): set<Uuid> {
    set f | f in log :: f.id
  }

  lemma IdsOfLog(log: seq<Frame>, have: set<Uuid>)
    requires forall id :: id in have <==> HasFrameId(log, id)
    ensures have == LogIds(log)
  {
    forall id ensures id in have <==> id in LogIds(log) {
      if HasFrameId(log, id) {
        var i :| 0 <= i < |log| && log[i].id == id;
        assert log[i] in log;
      }
      if id in LogIds(log) {
        var f :| f in log && f.id == id;
        var i :| 0 <= i < |log| && log[i] == f;
      }
    }
  }

  /** Every list the device lacks or is behind on is there for it to unwrap. */
  lemma RowsInTables(t: Relay, held: Ring, d: Pub)
    ensures (forall s | s in MembershipsOf(t, d) :: RowUnwraps(held, MembershipsOf(t, d), s, d)) <==>
            (forall k | k in t.members && k.1 == d && k.0 != NIL :: MemberUnwraps(t, held, d, k))
  {
    forall k | k in t.members && k.1 == d && k.0 != NIL
      ensures k.0 in MembershipsOf(t, d)
      ensures RowUnwraps(held, MembershipsOf(t, d), k.0, d) == MemberUnwraps(t, held, d, k)
    {
      assert k == (k.0, d);
    }
    forall s | s in MembershipsOf(t, d) ensures (s, d) in t.members {
    }
    if forall k | k in t.members && k.1 == d && k.0 != NIL :: MemberUnwraps(t, held, d, k) {
      forall s | s in MembershipsOf(t, d) ensures RowUnwraps(held, MembershipsOf(t, d), s, d) {
        if s != NIL {
          assert MemberUnwraps(t, held, d, (s, d));
        }
      }
    }
  }

  /** The list of one membership row unwraps for the device, if the device needs it. */
  predicate MemberUnwraps(t: Relay, held: Ring, d: Pub, k: (Uuid, Pub))
    requires k in t.members
  {
    var epoch := if k.0 in t.shareEpochs then t.shareEpochs[k.0] else 0;
    k.0 !in held || epoch > |held[k.0]| - 1 ==> t.members[k].recipient == d && t.members[k].keys != []
  }

  /**
   One full round. It succeeds exactly when the device may sync and every key list it lacks or is
   behind on unwraps for it. Then everything the vault had is at the relay, everything the device
   may have past its old cursor (or at all, when it gained a share) is in its log, whatever of that
   is new and opens shows in its memory beside all that showed before, the cursor has reached the
   relay's head, and the counts are the rows stored and frames applied.
   */
  method SyncOnce(v: Vault.Vault, relay: RelayServer.Server, d: Pub, now: int, ghost tr: Trace)
    returns (r: Result<(nat, nat), SyncError>, ghost tr': Trace)
    requires v.Valid() && Shows(tr, d, v.Now(), relay.Tables()) && PhaseOf(tr) == Idle
    modifies v, v.dir, relay
    ensures v.Valid() && Shows(tr', d, v.Now(), relay.Tables()) && Continues(tr, tr')
    ensures old(v.dir.log) <= v.dir.log && old(relay.entries) <= relay.entries
    ensures r.Ok? <==>
              var t, held := old(relay.Tables()), old(v.ring);
              && d in t.devices && t.devices[d].approved && !t.devices[d].revoked
              && (t.devices[d].wrapped.Some? && t.vault.Some? && t.vault.value.epoch > EpochOf(held, NIL) ==>
                    t.devices[d].wrapped.value.recipient == d && t.devices[d].wrapped.value.keys != [])
              && (forall k | k in t.members && k.1 == d && k.0 != NIL :: MemberUnwraps(t, held, d, k))
    ensures r.Ok? ==> PhaseOf(tr') == Idle
    ensures r.Ok? ==> PulledShows(relay.Tables(), d, old(v.meta.cursor), LogIds(old(v.dir.log)), v.ring, v.state)
    ensures r.Ok? ==> ShowsMore(old(v.state), v.state)
    ensures r.Ok? ==> relay.Tables() == StoreAll(old(relay.Tables()), TaggedLog(v.ring, old(v.dir.log)))
    ensures r.Ok? ==> LogStored(relay.Tables(), old(v.dir.log))
    ensures r.Ok? ==> PulledPast(relay.Tables(), d, old(v.meta.cursor), v.dir.log)
    ensures r.Ok? ==> var ms := old(MembershipsOf(relay.Tables(), d));
                      && TookRows(old(v.ring), v.ring, ms, ms.Keys)
                      && (GainsFrom(old(v.ring), ms, ms.Keys) ==> PulledPast(relay.Tables(), d, 0, v.dir.log))
    ensures r.Ok? ==> v.dir.meta.cursor == v.meta.cursor >= Head(relay.Tables())
    ensures r.Ok? ==> r.value.0 == |relay.entries| - |old(relay.entries)|
    ensures r.Ok? ==> r.value.1 == |v.dir.log| - |old(v.dir.log)|
    ensures r.Err? ==> relay.Tables() == old(relay.Tables()) && v.dir.log == old(v.dir.log) && v.meta == old(v.meta)
  {
    RowsInTables(relay.Tables(), v.ring, d);
    ghost var begun := BeginStep(tr, d, v.Now(), relay.Tables());
    var healed, afterHeal := HealShares(v, relay, d, now, begun);
    ContinuesThen(tr, begun, afterHeal);
    if healed.Err? {
      return Err(healed.error), afterHeal;
    }
    var stored, have, afterPush := PushRound(v, relay, d, now, afterHeal);
    ContinuesThen(tr, afterHeal, afterPush);
    var pulled;
    pulled, tr' := PullRound(v, relay, d, now, have, healed.value, afterPush);
    ContinuesThen(tr, afterPush, tr');
    IdsOfLog(old(v.dir.log), have);
    MorePulled(relay.Tables(), d, if healed.value then 0 else old(v.meta.cursor), old(v.meta.cursor), have, v.dir.log,
               v.ring, v.state);
    return Ok((stored, pulled.value)), tr';
  }

  lemma BeginStep(tr: Trace, d: Pub, w: View, r: Relay) returns (tr': Trace)
    requires Shows(tr, d, w, r) && PhaseOf(tr) == Idle
    ensures Shows(tr', d, w, r) && Continues(tr, tr') && PhaseOf(tr') == Healing(0, {}, [])
  {
    ThenIsTrace(tr, d, BeginRound(0));
    tr' := Then(tr, d, BeginRound(0));
  }
}
