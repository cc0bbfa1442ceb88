/**
 Runs of the relay under arbitrary requests, replays included, and what holds over every run.
 Relay time does not go backwards; each request is handled at one time.
 */
module RelayRuns {
  import opened Wrappers
  import opened Records
  import opened RelaySpec

  /** `Foreign` is a request for another vault: it may use the signature cache and take sequence numbers. */
  datatype Event =
    | Request(now: int, signed: Signed)
    | Recovery(now: int, recover: Recover)
    | Foreign(now: int, sig: Sig, rows: nat)

  function Step(r: Relay, e: Event): Outcome {
    match e
    case Request(now, s) => Serve(r, now, s)
    case Recovery(_, q) => DoRecover(r, q)
    case Foreign(now, sig, rows) =>
      Outcome(r.(seen := MarkSeen(r.seen, now, sig).0, lastSeq := r.lastSeq + rows), Done(0, 0))
  }

  ghost predicate StepAt(rs: seq<Relay>, es: seq<Event>, i: nat)
    requires i < |es| < |rs|
  {
    rs[i + 1] == Step(rs[i], es[i]).relay
  }

  ghost predicate Run(rs: seq<Relay>, es: seq<Event>) {
    && |rs| == |es| + 1
    && rs[0] == EMPTY
    && (forall i: nat | i < |es| :: StepAt(rs, es, i))
    && (forall i, j | 0 <= i < j < |es| :: es[i].now <= es[j].now)
  }

  // ---- devices ----------------------------------------------------------------

  /** A revoked device is unapproved and has no wrapped key; rows exist only for an existing vault. */
  ghost predicate DevicesOk(r: Relay) {
    && (forall p | p in r.devices && r.devices[p].revoked :: !r.devices[p].approved && r.devices[p].wrapped.None?)
    && (r.vault.None? ==> r.devices == map[])
  }

  lemma StepKeepsDevices(r: Relay, e: Event)
    requires DevicesOk(r)
    ensures DevicesOk(Step(r, e).relay)
  {
    if e.Request? && e.signed.body.Rotate? {
      WrapsReachLiveRows(r.devices, e.signed.body.wrapped);
    } else if e.Request? && e.signed.body.Push? {
      StoreAllFrame(r, e.signed.body.entries);
    }
  }

  /** In every reachable state a revoked device is unapproved and holds no wrapped key. */
  lemma {:induction false} RunKeepsDevices(rs: seq<Relay>, es: seq<Event>, n: nat)
    requires Run(rs, es) && n < |rs|
    ensures DevicesOk(rs[n])
  {
    if n > 0 {
      RunKeepsDevices(rs, es, n - 1);
      assert StepAt(rs, es, n - 1);
      StepKeepsDevices(rs[n - 1], es[n - 1]);
    }
  }

  predicate IsRevoked(r: Relay, p: Pub) {
    p in r.devices && r.devices[p].revoked
  }

  /** The relay accepts a recovery of the device: it proves possession of the vault's own recovery key. */
  predicate Recovers(r: Relay, e: Event, p: Pub) {
    e.Recovery? && e.recover.pub == p && DoRecover(r, e.recover).reply.Done?
  }

  /** Only an accepted recovery ends a revocation, and until then the row does not change. */
  lemma RevocationIsSticky(r: Relay, e: Event, p: Pub)
    requires DevicesOk(r) && IsRevoked(r, p) && !Recovers(r, e, p)
    ensures IsRevoked(Step(r, e).relay, p) && Step(r, e).relay.devices[p] == r.devices[p]
  {
    if e.Request? && e.signed.body.Rotate? {
      WrapsReachLiveRows(r.devices, e.signed.body.wrapped);
    } else if e.Request? && e.signed.body.Push? {
      StoreAllFrame(r, e.signed.body.entries);
    }
  }

  predicate Bootstraps(r: Relay, e: Event) {
    Step(r, e).reply.Enrolled? && Step(r, e).reply.approved
  }

  /** The relay admits `p` without another device: as the vault's first device, or by an accepted recovery. */
  predicate AdmitsAsRoot(r: Relay, e: Event, p: Pub) {
    Recovers(r, e, p) || (e.Request? && e.signed.device == p && Bootstraps(r, e))
  }

  /** The relay accepts the approval of `p` by `approver`, which it knows as approved. */
  predicate ApprovesFor(r: Relay, e: Event, approver: Pub, p: Pub) {
    && e.Request? && e.signed.device == approver && Step(r, e).reply.Done?
    && e.signed.body.Approve? && e.signed.body.target == p
    && CanSync(r, approver)
  }

  predicate IsApproved(r: Relay, p: Pub) {
    p in r.devices && r.devices[p].approved
  }

  lemma NewlyApproved(r: Relay, e: Event, p: Pub)
    requires DevicesOk(r) && !IsApproved(r, p) && IsApproved(Step(r, e).relay, p)
    ensures AdmitsAsRoot(r, e, p) || (e.Request? && ApprovesFor(r, e, e.signed.device, p))
  {
    if e.Request? && e.signed.body.Rotate? {
      WrapsReachLiveRows(r.devices, e.signed.body.wrapped);
    } else if e.Request? && e.signed.body.Push? {
      StoreAllFrame(r, e.signed.body.entries);
    }
  }

  /**
   Before step `n`, some step admitted `p` as bootstrap or recovery, or a device approved at that
   moment approved it, and that device's own admission traces back in the same way.
   */
  ghost predicate TracesToRoot(rs: seq<Relay>, es: seq<Event>, n: nat, p: Pub)
    requires n <= |es| < |rs|
    decreases n, 0
  {
    exists i: nat | i < n :: Admission(rs, es, i, p)
  }

  ghost predicate Admission(rs: seq<Relay>, es: seq<Event>, i: nat, p: Pub)
    requires i < |es| < |rs|
    decreases i, 1
  {
    || AdmitsAsRoot(rs[i], es[i], p)
    || (&& es[i].Request?
        && ApprovesFor(rs[i], es[i], es[i].signed.device, p)
        && TracesToRoot(rs, es, i, es[i].signed.device))
  }

  /** Every approved device traces back through devices approved at the time to a bootstrap or a recovery. */
  lemma {:induction false} ApprovedTracesToRoot(rs: seq<Relay>, es: seq<Event>, n: nat, p: Pub)
    requires Run(rs, es) && n <= |es| && IsApproved(rs[n], p)
    ensures TracesToRoot(rs, es, n, p)
  {
    if n > 0 {
      var i := n - 1;
      assert StepAt(rs, es, i);
      if IsApproved(rs[i], p) {
        ApprovedTracesToRoot(rs, es, i, p);
        var k: nat :| k < i && Admission(rs, es, k, p);
      } else {
        RunKeepsDevices(rs, es, i);
        NewlyApproved(rs[i], es[i], p);
        if !AdmitsAsRoot(rs[i], es[i], p) {
          ApprovedTracesToRoot(rs, es, i, es[i].signed.device);
        }
        assert Admission(rs, es, i, p);
      }
    }
  }

  lemma {:induction false} VaultStays(rs: seq<Relay>, es: seq<Event>, m: nat, n: nat)
    requires Run(rs, es) && m <= n < |rs| && rs[m].vault.Some?
    ensures rs[n].vault.Some? && rs[n].vault.value.recoveryPub == rs[m].vault.value.recoveryPub
    ensures rs[m].vault.value.epoch <= rs[n].vault.value.epoch
  {
    if m < n {
      VaultStays(rs, es, m, n - 1);
      assert StepAt(rs, es, n - 1);
      StepRaisesEpochs(rs[n - 1], es[n - 1]);
    }
  }

  /** At most one device of a vault is admitted by bootstrap. */
  lemma OneBootstrap(rs: seq<Relay>, es: seq<Event>, i: nat, j: nat)
    requires Run(rs, es) && i < j < |es|
    ensures !(Bootstraps(rs[i], es[i]) && Bootstraps(rs[j], es[j]))
  {
    if Bootstraps(rs[i], es[i]) {
      assert StepAt(rs, es, i);
      VaultStays(rs, es, i + 1, j);
    }
  }

  // ---- what requests mean for devices ----------------------------------------------------

  predicate Accepted(r: Relay, now: int, s: Signed) {
    !Serve(r, now, s).reply.Rejected?
  }

  /** Whatever a revoked device asks is refused and changes nothing. */
  lemma RevokedIsRefused(r: Relay, now: int, s: Signed)
    requires DevicesOk(r) && IsRevoked(r, s.device)
    ensures !Accepted(r, now, s) && Serve(r, now, s).relay == r
  {
  }

  /** A device that is not approved can enrol and ask for its list; anything else is refused and changes nothing. */
  lemma PendingIsRefused(r: Relay, now: int, s: Signed)
    requires !IsApproved(r, s.device) && !s.body.Enroll? && !s.body.GetWrapped?
    ensures !Accepted(r, now, s) && Serve(r, now, s).relay == r
  {
  }

  /**
   A revocation is accepted exactly from a device that may sync, for a known target. From then on the
   target is refused whatever it asks, and no other device is affected.
   */
  lemma RevocationShutsOut(r: Relay, now: int, s: Signed)
    requires DevicesOk(r) && s.body.Revoke? && Verifies(now, s)
    ensures Accepted(r, now, s) <==> CanSync(r, s.device) && s.body.target in r.devices
    ensures Accepted(r, now, s) ==>
      var r' := Serve(r, now, s).relay;
      && (forall later, q: Signed | q.device == s.body.target ::
          !Accepted(r', later, q) && Serve(r', later, q).relay == r')
      && (forall p | p != s.body.target ::
          (p in r'.devices <==> p in r.devices) && (p in r.devices ==> r'.devices[p] == r.devices[p]))
  {
    if Accepted(r, now, s) {
      var r' := Serve(r, now, s).relay;
      StepKeepsDevices(r, Request(now, s));
      forall later, q: Signed | q.device == s.body.target
        ensures !Accepted(r', later, q) && Serve(r', later, q).relay == r'
      {
        RevokedIsRefused(r', later, q);
      }
    }
  }

  /** What a device gets when it asks for its wrapped list. */
  function ListReply(r: Relay, p: Pub, now: int): Reply {
    Serve(r, now, Signed(p, Sig(p, now, GetWrapped), now, GetWrapped)).reply
  }

  /**
   An approval is accepted exactly from a device that may sync, for a known target that is not revoked.
   The target may sync from then on, and asking for its list it gets the one it was approved with.
   */
  lemma ApprovalAdmits(r: Relay, now: int, s: Signed)
    requires s.body.Approve? && Verifies(now, s)
    ensures Accepted(r, now, s) <==>
              CanSync(r, s.device) && s.body.target in r.devices && !r.devices[s.body.target].revoked
    ensures Accepted(r, now, s) ==>
      var r' := Serve(r, now, s).relay;
      && CanSync(r', s.body.target)
      && (forall later :: ListReply(r', s.body.target, later).Wrapping?
                          && ListReply(r', s.body.target, later).list == Some(s.body.wrappedKey))
      && (forall p | p != s.body.target ::
          CanSync(r', p) == CanSync(r, p) && ListReply(r', p, now) == ListReply(r, p, now))
  {
  }

  /**
   An enrolment is refused exactly for another's key or a revoked device. It lets a device sync only if it
   could before or the vault did not exist, and it keeps every wrapped list.
   */
  lemma EnrolmentAdmitsOnlyFirst(r: Relay, now: int, s: Signed)
    requires DevicesOk(r) && s.body.Enroll? && Verifies(now, s)
    ensures Accepted(r, now, s) <==> s.body.pub == s.device && !IsRevoked(r, s.device)
    ensures var r' := Serve(r, now, s).relay;
            && (Accepted(r, now, s) ==> s.device in r'.devices && r'.vault.Some?)
            && (forall p ::
                CanSync(r', p) <==> CanSync(r, p) || (p == s.device && r.vault.None? && Accepted(r, now, s)))
            && (forall p | p in r.devices :: p in r'.devices && r'.devices[p].wrapped == r.devices[p].wrapped)
  {
  }

  /**
   A recovery is accepted exactly on proof by the vault's own recovery key. It readmits its device,
   revoked or not, and no other; a device that was revoked gets no list with it.
   */
  lemma RecoveryReadmits(r: Relay, q: Recover)
    requires DevicesOk(r)
    ensures DoRecover(r, q).reply.Done? <==>
              && q.signedBy == q.recoveryPub && q.signedPub == q.pub
              && r.vault.Some? && r.vault.value.recoveryPub == q.recoveryPub
    ensures var r' := DoRecover(r, q).relay;
            && (forall p :: CanSync(r', p) <==> CanSync(r, p) || (p == q.pub && DoRecover(r, q).reply.Done?))
            && (forall p | p in r.devices :: p in r'.devices && r'.devices[p].wrapped == r.devices[p].wrapped)
            && (DoRecover(r, q).reply.Done? && IsRevoked(r, q.pub) ==> r'.devices[q.pub].wrapped.None?)
  {
  }

  /** A device that asks for its list after a rotation gets a list the rotation sent it, and the new epoch. */
  lemma HealFindsRotation(r: Relay, e: Event, p: Pub, later: int)
    requires Rotates(r, e) && p in r.devices && !r.devices[p].revoked
    requires exists i | 0 <= i < |e.signed.body.wrapped| :: e.signed.body.wrapped[i].device == p
    ensures var reply := ListReply(Step(r, e).relay, p, later);
            && reply.Wrapping? && reply.epoch == e.signed.body.epoch
            && exists i | 0 <= i < |e.signed.body.wrapped| ::
                 e.signed.body.wrapped[i].device == p && reply.list == Some(e.signed.body.wrapped[i].wrapped)
  {
    WrapsReachLiveRows(r.devices, e.signed.body.wrapped);
    RotationEffect(r, e);
  }

  /** What a device gets when it asks for its shares. */
  function SharesReply(r: Relay, p: Pub, now: int): Reply {
    Serve(r, now, Signed(p, Sig(p, now, GetShares), now, GetShares)).reply
  }

  /** A device that may sync and was granted a share finds it among its shares, with a list the grant sent it. */
  lemma HealFindsGrant(r: Relay, now: int, s: Signed, p: Pub, later: int)
    requires s.body.ShareGrant? && Accepted(r, now, s) && CanSync(r, p)
    requires exists i | 0 <= i < |s.body.wrapped| :: s.body.wrapped[i].device == p
    ensures var reply := SharesReply(Serve(r, now, s).relay, p, later);
            && reply.Shares? && s.body.share in reply.memberships
            && reply.memberships[s.body.share].epoch >= s.body.epoch
            && (s.body.share in r.shareEpochs ==>
                  reply.memberships[s.body.share].epoch >= r.shareEpochs[s.body.share])
            && (reply.memberships[s.body.share].epoch == s.body.epoch ||
                (s.body.share in r.shareEpochs &&
                 reply.memberships[s.body.share].epoch == r.shareEpochs[s.body.share]))
            && exists i | 0 <= i < |s.body.wrapped| ::
                 s.body.wrapped[i].device == p && reply.memberships[s.body.share].wrapped == s.body.wrapped[i].wrapped
  {
    var r', share := Serve(r, now, s).relay, s.body.share;
    WithMembersKeys(r.members, share, s.body.wrapped);
    assert (share, p) in r'.members;
    MembershipsAreRows(r', p, share);
  }

  /** A device is told of exactly the shares it has a membership row for, with their lists. */
  lemma MembershipsAreRows(r: Relay, p: Pub, share: Uuid)
    ensures share in MembershipsOf(r, p) <==> (share, p) in r.members
    ensures (share, p) in r.members ==>
              MembershipsOf(r, p)[share] ==
                Membership(if share in r.shareEpochs then r.shareEpochs[share] else 0, r.members[(share, p)])
  {
    if (share, p) in r.members {
      assert (share, p).1 == p && (share, p).0 == share;
    }
  }

  /**
   The cache refuses a signature it has been shown for exactly 300 seconds after its first use, and one
   use does not change what it says of another signature at that time or later.
   */
  lemma SeenUntilExpiry(seen: map<Sig, int>, now: int, sig: Sig, later: int)
    requires MarkSeen(seen, now, sig).1 && now <= later
    ensures MarkSeen(MarkSeen(seen, now, sig).0, later, sig).1 <==> later > now + MAX_SKEW_SECS
    ensures forall other | other != sig ::
              MarkSeen(MarkSeen(seen, now, sig).0, later, other).1 == MarkSeen(seen, later, other).1
  {
  }

  /** A request is genuine and the two clocks differ by at most 300 seconds. */
  lemma VerifiesIff(now: int, s: Signed)
    ensures Verifies(now, s) <==> s.sig == Sig(s.device, s.ts, s.body) && s.ts - 300 <= now <= s.ts + 300
  {
  }

  /**
   The first enrolment founds the vault: its device may sync, the recovery key it names, and no other,
   admits devices, and the first rotation is the one to epoch 1.
   */
  lemma BootstrapFounds(r: Relay, now: int, s: Signed, q: Recover, later: int, rot: Signed)
    requires s.body.Enroll? && Verifies(now, s) && s.body.pub == s.device && r.vault.None? && DevicesOk(r)
    ensures var r' := Serve(r, now, s).relay;
            && CanSync(r', s.device)
            && (DoRecover(r', q).reply.Done? <==>
                  q.signedBy == q.recoveryPub == s.body.recoveryPub && q.signedPub == q.pub)
            && (rot.body.Rotate? && rot.device == s.device && Verifies(later, rot) && rot.sig !in r.seen ==>
                  (Serve(r', later, rot).reply.Done? <==> rot.body.epoch == 1))
  {
  }

  /** Who lists the devices sees the keys to wrap for: the ones last enrolled or recovered with. */
  lemma ListShowsKeys(r: Relay, now: int, s: Signed, q: Recover)
    ensures s.body.Enroll? && Accepted(r, now, s) ==>
              var table := Serve(r, now, s).relay.devices;
              s.device in table && table[s.device].xpub == s.body.xpub && table[s.device].name == s.body.name
    ensures DoRecover(r, q).reply.Done? ==>
              q.pub in DoRecover(r, q).relay.devices && DoRecover(r, q).relay.devices[q.pub].xpub == q.xpub
  {
  }

  // ---- epochs -------------------------------------------------------------------

  predicate VaultGrew(v: VaultRow, v': VaultRow) {
    v.epoch <= v'.epoch && v.recoveryPub == v'.recoveryPub
  }

  /** No event lowers the vault's epoch or a share's epoch, or forgets one. */
  lemma StepRaisesEpochs(r: Relay, e: Event)
    ensures var r' := Step(r, e).relay;
            && (r.vault.Some? ==> r'.vault.Some? && VaultGrew(r.vault.value, r'.vault.value))
            && (forall s | s in r.shareEpochs :: s in r'.shareEpochs && r.shareEpochs[s] <= r'.shareEpochs[s])
  {
    if e.Request? && e.signed.body.Push? {
      StoreAllFrame(r, e.signed.body.entries);
    }
  }

  /** The request is a vault rotation that took effect. */
  predicate Rotates(r: Relay, e: Event) {
    e.Request? && e.signed.body.Rotate? && Step(r, e).reply.Done?
  }

  predicate RotatesShare(r: Relay, e: Event, s: Uuid) {
    e.Request? && e.signed.body.ShareRotate? && e.signed.body.share == s && Step(r, e).reply.Done?
  }

  lemma {:induction false} ShareEpochStays(rs: seq<Relay>, es: seq<Event>, m: nat, n: nat, s: Uuid)
    requires Run(rs, es) && m <= n < |rs| && s in rs[m].shareEpochs
    ensures s in rs[n].shareEpochs && rs[m].shareEpochs[s] <= rs[n].shareEpochs[s]
  {
    if m < n {
      ShareEpochStays(rs, es, m, n - 1, s);
      assert StepAt(rs, es, n - 1);
      StepRaisesEpochs(rs[n - 1], es[n - 1]);
    }
  }

  /** Rotations of one target that took effect carry strictly increasing epochs, whatever is replayed in between. */
  lemma RotationsStrictlyIncrease(rs: seq<Relay>, es: seq<Event>, i: nat, j: nat)
    requires Run(rs, es) && i < j < |es|
    ensures Rotates(rs[i], es[i]) && Rotates(rs[j], es[j]) ==> es[i].signed.body.epoch < es[j].signed.body.epoch
    ensures forall s | RotatesShare(rs[i], es[i], s) && RotatesShare(rs[j], es[j], s) ::
              es[i].signed.body.epoch < es[j].signed.body.epoch
  {
    assert StepAt(rs, es, i);
    if Rotates(rs[i], es[i]) && Rotates(rs[j], es[j]) {
      VaultStays(rs, es, i + 1, j);
    }
    forall s | RotatesShare(rs[i], es[i], s) && RotatesShare(rs[j], es[j], s)
      ensures es[i].signed.body.epoch < es[j].signed.body.epoch
    {
      ShareEpochStays(rs, es, i + 1, j, s);
    }
  }

  /** A rotation that takes effect raises the epoch by exactly one and re-wraps exactly the live rows it lists. */
  lemma RotationEffect(r: Relay, e: Event)
    requires Rotates(r, e)
    ensures var r' := Step(r, e).relay;
            && r.vault.Some? && r'.vault.Some?
            && r'.vault.value.epoch == r.vault.value.epoch + 1 == e.signed.body.epoch
            && r'.devices == WithWraps(r.devices, e.signed.body.wrapped)
            && r'.members == r.members && r'.entries == r.entries
  {
  }

  /** The signature is not in the cache, or its entry has expired. */
  predicate Unseen(r: Relay, now: int, sig: Sig) {
    sig in r.seen ==> r.seen[sig] < now
  }

  /**
   A rotation is accepted exactly when it is genuine, the clocks differ by at most 300 seconds, its sender
   is approved and not revoked, its signature was not used within its time in the cache, and it names
   the epoch that follows the vault's. Otherwise nothing but the cache changes. What it wraps, and for
   how many devices, does not matter.
   */
  lemma RotateAcceptedIff(r: Relay, now: int, s: Signed)
    requires s.body.Rotate?
    ensures Serve(r, now, s).reply.Done? <==>
              && s.sig == Sig(s.device, s.ts, s.body) && s.ts - 300 <= now <= s.ts + 300
              && s.device in r.devices && r.devices[s.device].approved && !r.devices[s.device].revoked
              && Unseen(r, now, s.sig)
              && r.vault.Some? && s.body.epoch == r.vault.value.epoch + 1
    ensures var after := Serve(r, now, s);
            !after.reply.Done? ==> after.reply.Rejected? && after.relay == r.(seen := after.relay.seen)
  {
  }

  /**
   Likewise a share's rotation: the share has no epoch yet, or the epoch named follows it. When it is
   accepted the share has that epoch.
   */
  lemma ShareRotateAcceptedIff(r: Relay, now: int, s: Signed)
    requires s.body.ShareRotate?
    ensures Serve(r, now, s).reply.Done? <==>
              && s.sig == Sig(s.device, s.ts, s.body) && s.ts - 300 <= now <= s.ts + 300
              && s.device in r.devices && r.devices[s.device].approved && !r.devices[s.device].revoked
              && Unseen(r, now, s.sig)
              && (s.body.share in r.shareEpochs ==> s.body.epoch == r.shareEpochs[s.body.share] + 1)
    ensures var after := Serve(r, now, s);
            && (!after.reply.Done? ==> after.reply.Rejected? && after.relay == r.(seen := after.relay.seen))
            && (after.reply.Done? ==> after.relay.shareEpochs == r.shareEpochs[s.body.share := s.body.epoch])
  {
  }

  // ---- replay --------------------------------------------------------------------

  /** The request passes the checks a rotation makes before it looks at the epoch. */
  predicate Passes(r: Relay, e: Event) {
    e.Request? && Verifies(e.now, e.signed) && e.signed.sig !in Unexpired(r.seen, e.now)
  }

  predicate UsesCache(r: Relay, e: Event) {
    e.Request? && (e.signed.body.Rotate? || e.signed.body.ShareRotate?) && CanSync(r, e.signed.device) && Passes(r, e)
  }

  lemma SeenStaysUntilExpiry(r: Relay, e: Event, sig: Sig, until: int)
    requires sig in r.seen && until <= r.seen[sig] && e.now <= until
    ensures sig in Step(r, e).relay.seen && until <= Step(r, e).relay.seen[sig]
  {
    if e.Request? && e.signed.body.Push? {
      StoreAllFrame(r, e.signed.body.entries);
    }
  }

  lemma {:induction false} SeenStays(rs: seq<Relay>, es: seq<Event>, m: nat, n: nat, sig: Sig, until: int)
    requires Run(rs, es) && m <= n < |es|
    requires sig in rs[m].seen && until <= rs[m].seen[sig] && es[n].now <= until
    ensures sig in rs[n].seen && until <= rs[n].seen[sig]
  {
    if m < n {
      assert es[n - 1].now <= es[n].now;
      SeenStays(rs, es, m, n - 1, sig, until);
      assert StepAt(rs, es, n - 1);
      SeenStaysUntilExpiry(rs[n - 1], es[n - 1], sig, until);
    }
  }

  /** A signature accepted at a relay time not before its timestamp is never accepted again. */
  lemma AcceptedOnce(rs: seq<Relay>, es: seq<Event>, i: nat, j: nat)
    requires Run(rs, es) && i < j < |es|
    requires UsesCache(rs[i], es[i]) && es[i].signed.ts <= es[i].now
    ensures es[j].Request? && es[j].signed == es[i].signed ==> !Passes(rs[j], es[j])
  {
    if es[j].Request? && es[j].signed == es[i].signed && Passes(rs[j], es[j]) {
      assert StepAt(rs, es, i);
      var until := es[i].now + MAX_SKEW_SECS;
      assert es[j].now <= es[j].signed.ts + MAX_SKEW_SECS <= until;
      SeenStays(rs, es, i + 1, j, es[i].signed.sig, until);
      assert false;
    }
  }

  /** One acceptance rules out every later one exactly when the timestamp is not after the relay time. */
  lemma NoSecondAcceptanceIff(seen: map<Sig, int>, now: int, s: Signed)
    requires Verifies(now, s) && s.sig !in Unexpired(seen, now)
    ensures (forall later | later >= now ::
               !(Verifies(later, s) && s.sig !in Unexpired(MarkSeen(seen, now, s.sig).0, later)))
            <==> s.ts <= now
  {
    var after := MarkSeen(seen, now, s.sig).0;
    if s.ts > now {
      var later := s.ts + MAX_SKEW_SECS;
      assert Verifies(later, s) && s.sig !in Unexpired(after, later);
    }
  }

  // ---- entries --------------------------------------------------------------------

  lemma OnlyPushAddsRows(r: Relay, e: Event)
    requires !(e.Request? && e.signed.body.Push?)
    ensures Step(r, e).relay.entries == r.entries && Step(r, e).relay.lastSeq >= r.lastSeq
  {
  }

  lemma StepKeepsTable(r: Relay, e: Event)
    requires TableOk(r)
    ensures TableOk(Step(r, e).relay) && r.entries <= Step(r, e).relay.entries
  {
    if e.Request? && e.signed.body.Push? {
      StoreAllAppends(r, e.signed.body.entries);
    } else {
      OnlyPushAddsRows(r, e);
    }
  }

  /** Over every run the entry table is append-only, its numbers increase and its ids are unique. */
  lemma {:induction false} RunKeepsTable(rs: seq<Relay>, es: seq<Event>, m: nat, n: nat)
    requires Run(rs, es) && m <= n < |rs|
    ensures TableOk(rs[n]) && rs[m].entries <= rs[n].entries
    decreases n
  {
    if n > 0 {
      RunKeepsTable(rs, es, if m < n then m else n - 1, n - 1);
      assert StepAt(rs, es, n - 1);
      StepKeepsTable(rs[n - 1], es[n - 1]);
    }
  }
}
