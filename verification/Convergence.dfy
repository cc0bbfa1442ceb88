/**
 Convergence: after a quiet sweep, in which every device that takes part pushes what it has and
 then completes a pull, these devices agree on every record of every share they have in common,
 and those with the same keyring have identical state. Devices that take no part (revoked,
 pending or offline ones) may do what they like but push into the second half of the sweep.
 */
module Convergence {
  import opened Records
  import opened Merging
  import opened Keyrings
  import opened VaultSpec
  import VaultRuns
  import Fleet
  import opened RelaySpec
  import opened Protocol
  import opened ProtocolSteps
  import opened ProtocolKeys
  import opened ProtocolWorld
  import opened ProtocolTags
  import opened ProtocolCursors
  import opened ProtocolRuns

  function LogIn(s: Sys, d: Uuid): seq<Frame>
    requires d in s.devs
  {
    s.devs[d].dir.disk.log
  }

  function RingIn(s: Sys, d: Uuid): Ring
    requires d in s.devs
  {
    s.devs[d].dir.disk.ring
  }

  /** Between the two states the devices that take part keep their key lists and memberships. */
  ghost predicate Quiet(s: Sys, s': Sys, part: set<Uuid>) {
    && (forall d | d in part :: d in s.devs && d in s'.devs && RingIn(s', d) == RingIn(s, d))
    && (forall k | k in s.relay.members && k.1 in part :: k in s'.relay.members)
    && (forall k | k in s'.relay.members && k.1 in part :: k in s.relay.members)
  }

  /** A device that takes part appends a record. */
  predicate Writes(a: Action, part: set<Uuid>) {
    a.Act? && a.d in part && a.op.Local? && a.op.op.Append?
  }

  /** A device that takes no part pushes. */
  predicate PushesOutside(a: Action, part: set<Uuid>) {
    a.Act? && a.d !in part && a.op.PushLog?
  }

  /** From `m` to `q` the devices that take part write nothing and keep their key lists and memberships. */
  ghost predicate QuietFor(ss: seq<Sys>, acts: seq<Action>, part: set<Uuid>, m: nat, q: nat) {
    && m <= q < |ss| && |ss| == |acts| + 1
    && (forall n: nat {:trigger Quiet(ss[m], ss[n], part)} | m <= n <= q :: Quiet(ss[m], ss[n], part))
    && (forall k: nat {:trigger Writes(acts[k], part)} | m <= k < q :: !Writes(acts[k], part))
  }

  /** From `p` to `q` only devices that take part push. */
  ghost predicate StillFor(acts: seq<Action>, part: set<Uuid>, p: nat, q: nat) {
    q <= |acts| && forall k: nat {:trigger PushesOutside(acts[k], part)} | p <= k < q :: !PushesOutside(acts[k], part)
  }

  // ---- the sweep ----------------------------------------------------------------------------

  predicate BeginsRound(a: Action, d: Uuid) {
    a.Act? && a.d == d && a.op.BeginRound?
  }

  predicate SameRound(acts: seq<Action>, i: nat, j: nat, d: Uuid)
    requires j <= |acts|
  {
    forall k: nat | i < k < j :: !BeginsRound(acts[k], d)
  }

  /** Steps `i` and `j` read the log and push it in one round of the device. */
  predicate PushRound(acts: seq<Action>, i: nat, j: nat, d: Uuid) {
    i < j < |acts| && acts[i] == Act(d, ReadLog) && acts[j] == Act(d, PushLog) && SameRound(acts, i, j, d)
  }

  /** Steps `i` and `j` begin a pull and finish it in one round of the device. */
  predicate PullRound(acts: seq<Action>, i: nat, j: nat, d: Uuid) {
    i < j < |acts| && acts[i] == Act(d, PullPast) && acts[j] == Act(d, Finish) && SameRound(acts, i, j, d)
  }

  ghost predicate PushesIn(acts: seq<Action>, from: nat, to: nat, d: Uuid) {
    exists i: nat, j: nat :: from <= i && j < to && PushRound(acts, i, j, d)
  }

  ghost predicate PullsIn(acts: seq<Action>, from: nat, to: nat, d: Uuid) {
    exists i: nat, j: nat :: from <= i && j < to && PullRound(acts, i, j, d)
  }

  // ---- pushing ------------------------------------------------------------------------------

  /** Everything the devices that take part have is at the relay. */
  ghost predicate StoredFor(s: Sys, part: set<Uuid>) {
    forall d | d in part :: d in s.devs && LogStored(s.relay, LogIn(s, d))
  }

  /** Frames of `log` were in `before` or are at the relay. */
  ghost predicate StoredSince(r: Relay, before: seq<Frame>, log: seq<Frame>) {
    forall f | f in log :: f in before || Stored(r, f.id)
  }

  /** A log gains only what its device appends and frames that are at the relay. */
  lemma QuietDevStep(s: Sys, s': Sys, d: Uuid, op: DevOp)
    requires TagsInv(s) && Acted(s, s', d, op) && !(op.Local? && op.op.Append?)
    ensures StoredSince(s.relay, LogIn(s, d), LogIn(s', d))
  {
    var dev := s.devs[d];
    assert DevTags(s.relay, dev);
    DirStep(dev, s.relay, d, op);
    var t := TouchOf(dev, s.relay, d, op);
    if t.Touched? {
      VaultRuns.SectionBrings(dev.dir, t.h, t.op);
    }
  }

  lemma StoredSinceThen(r: Relay, r': Relay, before: seq<Frame>, log: seq<Frame>, log': seq<Frame>)
    requires StoredSince(r, before, log) && StoredSince(r, log, log') && r.entries <= r'.entries
    ensures StoredSince(r', before, log')
  {
    StoredStays(r, r');
  }

  lemma QuietStep(s: Sys, a: Action, part: set<Uuid>, d: Uuid)
    requires TagsInv(s) && Enabled(s, a) && !Writes(a, part) && d in part && d in s.devs
    ensures d in Next(s, a).devs && StoredSince(s.relay, LogIn(s, d), LogIn(Next(s, a), d))
  {
    if a.Act? {
      ActFrame(s, a.d, a.op);
      if a.d == d {
        QuietDevStep(s, Next(s, a), d, a.op);
      }
    }
  }

  lemma QuietStepAt(ss: seq<Sys>, acts: seq<Action>, part: set<Uuid>, n: nat, d: Uuid)
    requires Run(ss, acts) && n < |acts| && !Writes(acts[n], part) && d in part && d in ss[n].devs
    ensures d in ss[n + 1].devs && StoredSince(ss[n].relay, LogIn(ss[n], d), LogIn(ss[n + 1], d))
    ensures ss[n].relay.entries <= ss[n + 1].relay.entries
  {
    RunKeepsInv(ss, acts, n);
    assert StepAt(ss, acts, n);
    QuietStep(ss[n], acts[n], part, d);
    RunGrows(ss, acts, n, n + 1);
  }

  /** In the quiet, what is in a log and was not there at `i` came from the relay. */
  lemma {:induction false} LogSince(ss: seq<Sys>, acts: seq<Action>, part: set<Uuid>, i: nat, n: nat, d: Uuid)
    requires Run(ss, acts) && QuietFor(ss, acts, part, i, n) && d in part && d in ss[i].devs
    ensures d in ss[n].devs && StoredSince(ss[n].relay, LogIn(ss[i], d), LogIn(ss[n], d))
    decreases n
  {
    if i < n {
      QuietWithin(ss, acts, part, i, n, i, n - 1);
      LogSince(ss, acts, part, i, n - 1, d);
      assert !Writes(acts[n - 1], part);
      QuietStepAt(ss, acts, part, n - 1, d);
      StoredSinceThen(ss[n - 1].relay, ss[n].relay, LogIn(ss[i], d), LogIn(ss[n - 1], d), LogIn(ss[n], d));
    }
  }

  /** A part of a quiet stretch is quiet. */
  lemma QuietWithin(ss: seq<Sys>, acts: seq<Action>, part: set<Uuid>, m: nat, q: nat, i: nat, n: nat)
    requires QuietFor(ss, acts, part, m, q) && m <= i <= n <= q
    ensures QuietFor(ss, acts, part, i, n)
  {
    assert Quiet(ss[m], ss[i], part);
    forall j: nat | i <= j <= n ensures Quiet(ss[i], ss[j], part) {
      assert Quiet(ss[m], ss[j], part);
    }
    forall k: nat | i <= k < n ensures !Writes(acts[k], part) {
    }
  }

  /** The round that read `local` is still to push it, or is past the push. */
  ghost predicate ReadPhase(p: Phase, local: seq<TaggedFrame>) {
    !p.Healing? && (p.Pushing? ==> p.local == local)
  }

  lemma ReadPhaseStep(s: Sys, a: Action, d: Uuid, local: seq<TaggedFrame>)
    requires Enabled(s, a) && d in s.devs && ReadPhase(s.devs[d].phase, local)
    requires !BeginsRound(a, d)
    ensures d in Next(s, a).devs && ReadPhase(Next(s, a).devs[d].phase, local)
  {
    if a.Act? {
      ActFrame(s, a.d, a.op);
    } else if !a.Join? {
      RelayFrame(s, a);
    }
  }

  lemma {:induction false} ReadPhaseStays(ss: seq<Sys>, acts: seq<Action>, i: nat, n: nat, d: Uuid,
                                          local: seq<TaggedFrame>)
    requires Run(ss, acts) && i < n < |ss| && SameRound(acts, i, n, d)
    requires d in ss[i + 1].devs && ReadPhase(ss[i + 1].devs[d].phase, local)
    ensures d in ss[n].devs && ReadPhase(ss[n].devs[d].phase, local)
  {
    if i + 1 < n {
      ReadPhaseStays(ss, acts, i, n - 1, d, local);
      assert StepAt(ss, acts, n - 1);
      ReadPhaseStep(ss[n - 1], acts[n - 1], d, local);
    }
  }

  lemma PushStoresLocal(r: Relay, ring: Ring, log: seq<Frame>)
    requires TableOk(r)
    ensures LogStored(StoreAll(r, TaggedLog(ring, log)), log)
  {
    var local := TaggedLog(ring, log);
    StoreAllAppends(r, local);
    forall f | f in log ensures Stored(StoreAll(r, local), f.id) {
      var i :| 0 <= i < |log| && log[i] == f;
      assert local[i] in local;
    }
  }

  /** After a device's push round everything it had when the round read its log is at the relay. */
  lemma PushLands(ss: seq<Sys>, acts: seq<Action>, i: nat, j: nat, d: Uuid)
    requires Run(ss, acts) && PushRound(acts, i, j, d) && d in ss[i].devs
    ensures LogStored(ss[j + 1].relay, LogIn(ss[i], d))
  {
    assert StepAt(ss, acts, i) && StepAt(ss, acts, j);
    var ring, log := RingIn(ss[i], d), LogIn(ss[i], d);
    ActFrame(ss[i], d, ReadLog);
    ReadPhaseStays(ss, acts, i, j, d, TaggedLog(ring, log));
    RunKeepsInv(ss, acts, j);
    ActFrame(ss[j], d, PushLog);
    PushStoresLocal(ss[j].relay, ring, log);
  }

  lemma LogStoredStays(r: Relay, r': Relay, log: seq<Frame>)
    requires LogStored(r, log) && r.entries <= r'.entries
    ensures LogStored(r', log)
  {
    StoredStays(r, r');
  }

  /** A device that pushed within the quiet has nothing that is not at the relay. */
  lemma PushedIsStored(ss: seq<Sys>, acts: seq<Action>, part: set<Uuid>, m: nat, p: nat, d: Uuid)
    requires Run(ss, acts) && QuietFor(ss, acts, part, m, p) && d in part && PushesIn(acts, m, p, d)
    ensures d in ss[p].devs && LogStored(ss[p].relay, LogIn(ss[p], d))
  {
    var i: nat, j: nat :| m <= i && j < p && PushRound(acts, i, j, d);
    assert Quiet(ss[m], ss[i], part);
    QuietWithin(ss, acts, part, m, p, i, p);
    PushLands(ss, acts, i, j, d);
    RunGrows(ss, acts, j + 1, p);
    LogStoredStays(ss[j + 1].relay, ss[p].relay, LogIn(ss[i], d));
    LogSince(ss, acts, part, i, p, d);
  }

  // ---- pulling ------------------------------------------------------------------------------

  lemma {:induction false} StoringStoredIsNothing(r: Relay, es: seq<TaggedFrame>)
    requires forall e | e in es :: Stored(r, e.frame.id)
    ensures StoreAll(r, es) == r
  {
    if es != [] {
      StoringStoredIsNothing(r, es[..|es| - 1]);
      assert es[|es| - 1] in es;
    }
  }

  /** When all that is pushed is stored, a step stores nothing. */
  lemma StoredStepIsStill(s: Sys, a: Action, part: set<Uuid>)
    requires Inv(s) && Enabled(s, a) && StoredFor(s, part) && !PushesOutside(a, part)
    ensures Next(s, a).relay.entries == s.relay.entries
  {
    if a.Act? {
      ActFrame(s, a.d, a.op);
      if a.op.PushLog? {
        var dev := s.devs[a.d];
        assert DevWorld(a.d, dev, s.world, s.issued);
        assert LogStored(s.relay, LogIn(s, a.d));
        StoringStoredIsNothing(s.relay, dev.phase.local);
      }
    } else if !a.Join? {
      RelayFrame(s, a);
    }
  }

  lemma StillStep(ss: seq<Sys>, acts: seq<Action>, part: set<Uuid>, n: nat)
    requires Run(ss, acts) && n < |acts| && StoredFor(ss[n], part) && !PushesOutside(acts[n], part)
    ensures ss[n + 1].relay.entries == ss[n].relay.entries
  {
    RunKeepsInv(ss, acts, n);
    assert StepAt(ss, acts, n);
    StoredStepIsStill(ss[n], acts[n], part);
  }

  lemma StoredForStays(ss: seq<Sys>, acts: seq<Action>, part: set<Uuid>, p: nat, n: nat)
    requires Run(ss, acts) && QuietFor(ss, acts, part, p, n) && StoredFor(ss[p], part)
    ensures StoredFor(ss[n], part)
  {
    RunGrows(ss, acts, p, n);
    forall d | d in part ensures d in ss[n].devs && LogStored(ss[n].relay, LogIn(ss[n], d)) {
      LogSince(ss, acts, part, p, n, d);
      LogStoredStays(ss[p].relay, ss[n].relay, LogIn(ss[p], d));
    }
  }

  lemma {:induction false} StoredStaysStill(ss: seq<Sys>, acts: seq<Action>, part: set<Uuid>, p: nat, n: nat)
    requires Run(ss, acts) && QuietFor(ss, acts, part, p, n) && StillFor(acts, part, p, n) && StoredFor(ss[p], part)
    ensures ss[n].relay.entries == ss[p].relay.entries && StoredFor(ss[n], part)
    decreases n
  {
    if p < n {
      QuietWithin(ss, acts, part, p, n, p, n - 1);
      StoredStaysStill(ss, acts, part, p, n - 1);
      assert !PushesOutside(acts[n - 1], part);
      StillStep(ss, acts, part, n - 1);
    }
    StoredForStays(ss, acts, part, p, n);
  }

  /** The pull to `head` is still being applied, or is over. */
  ghost predicate PullPhase(p: Phase, head: nat) {
    p.Idle? || (p.Applying? && p.head == head)
  }

  lemma PullPhaseStep(s: Sys, a: Action, d: Uuid, head: nat)
    requires Enabled(s, a) && d in s.devs && PullPhase(s.devs[d].phase, head)
    requires !BeginsRound(a, d)
    ensures d in Next(s, a).devs && PullPhase(Next(s, a).devs[d].phase, head)
  {
    if a.Act? {
      ActFrame(s, a.d, a.op);
    } else if !a.Join? {
      RelayFrame(s, a);
    }
  }

  lemma {:induction false} PullPhaseStays(ss: seq<Sys>, acts: seq<Action>, i: nat, n: nat, d: Uuid, head: nat)
    requires Run(ss, acts) && i < n < |ss| && SameRound(acts, i, n, d)
    requires d in ss[i + 1].devs && PullPhase(ss[i + 1].devs[d].phase, head)
    ensures d in ss[n].devs && PullPhase(ss[n].devs[d].phase, head)
  {
    if i + 1 < n {
      PullPhaseStays(ss, acts, i, n - 1, d, head);
      assert StepAt(ss, acts, n - 1);
      PullPhaseStep(ss[n - 1], acts[n - 1], d, head);
    }
  }

  /** The default share, or a share whose keys the device holds and of which it is a member. */
  predicate Belongs(s: Sys, d: Uuid, share: Uuid)
    requires d in s.devs
  {
    share == NIL || (share in RingIn(s, d) && (share, d) in s.relay.members)
  }

  /** The device has every relay entry of the default share and of the shares it holds and belongs to. */
  ghost predicate Caught(s: Sys, d: Uuid)
    requires d in s.devs
  {
    forall row | row in s.relay.entries && Belongs(s, d, row.share) :: row.frame in LogIn(s, d)
  }

  lemma PullHead(s: Sys, s': Sys, d: Uuid)
    requires Acted(s, s', d, PullPast)
    ensures s'.devs[d].phase.Applying? && s'.devs[d].phase.head >= Head(s.relay)
  {
  }

  lemma FinishedIsCaught(s: Sys, d: Uuid)
    requires TableOk(s.relay) && d in s.devs && DevCursors(s.relay, d, s.devs[d])
    requires s.devs[d].phase.Applying? && s.devs[d].phase.rest == [] && s.devs[d].phase.head >= Head(s.relay)
    ensures Caught(s, d)
  {
    forall row | row in s.relay.entries && Belongs(s, d, row.share) ensures row.frame in LogIn(s, d) {
      HeadIsLast(s.relay, row);
      assert Owed(s.relay, d, s.devs[d], row);
    }
  }

  /** A pull that finishes while the relay stands still leaves the device with everything it is owed. */
  lemma PullLands(ss: seq<Sys>, acts: seq<Action>, i: nat, j: nat, d: Uuid)
    requires CarefulRun(ss, acts, d) && PullRound(acts, i, j, d) && d in ss[i].devs
    requires ss[j].relay.entries == ss[i].relay.entries
    ensures d in ss[j].devs && Caught(ss[j], d)
  {
    assert StepAt(ss, acts, i);
    ActFrame(ss[i], d, PullPast);
    PullHead(ss[i], ss[i + 1], d);
    PullPhaseStays(ss, acts, i, j, d, ss[i + 1].devs[d].phase.head);
    assert StepAt(ss, acts, j);
    ActFrame(ss[j], d, Finish);
    RunKeepsInv(ss, acts, j);
    RunKeepsCursors(ss, acts, j, d);
    FinishedIsCaught(ss[j], d);
  }

  lemma CaughtStays(s: Sys, s': Sys, part: set<Uuid>, d: Uuid)
    requires d in part && Quiet(s, s', part) && Caught(s, d) && SysGrew(s, s') && s'.relay.entries == s.relay.entries
    ensures Caught(s', d)
  {
    forall row | row in s'.relay.entries && Belongs(s', d, row.share) ensures row.frame in LogIn(s', d) {
      assert Belongs(s, d, row.share);
      assert s.devs[d].dir.disk.log <= s'.devs[d].dir.disk.log;
    }
  }

  /** A device that completed a pull after everything was stored has everything it is owed. */
  lemma PulledIsCaught(ss: seq<Sys>, acts: seq<Action>, part: set<Uuid>, p: nat, q: nat, d: Uuid)
    requires CarefulRun(ss, acts, d) && QuietFor(ss, acts, part, p, q) && StillFor(acts, part, p, q)
    requires StoredFor(ss[p], part)
    requires d in part && PullsIn(acts, p, q, d)
    ensures d in ss[q].devs && Caught(ss[q], d)
  {
    var i: nat, j: nat :| p <= i && j < q && PullRound(acts, i, j, d);
    StillTo(ss, acts, part, p, q, i);
    StillTo(ss, acts, part, p, q, j);
    StillTo(ss, acts, part, p, q, q);
    PullLands(ss, acts, i, j, d);
    RunGrows(ss, acts, j, q);
    QuietWithin(ss, acts, part, p, q, j, q);
    assert Quiet(ss[j], ss[q], part);
    CaughtStays(ss[j], ss[q], part, d);
  }

  lemma StillTo(ss: seq<Sys>, acts: seq<Action>, part: set<Uuid>, p: nat, q: nat, n: nat)
    requires Run(ss, acts) && QuietFor(ss, acts, part, p, q) && StillFor(acts, part, p, q) && StoredFor(ss[p], part)
    requires p <= n <= q
    ensures ss[n].relay.entries == ss[p].relay.entries && StoredFor(ss[n], part)
  {
    QuietWithin(ss, acts, part, p, q, p, n);
    StoredStaysStill(ss, acts, part, p, n);
  }

  // ---- agreement ----------------------------------------------------------------------------

  /** The device's log is at the relay, and it has everything it is owed. */
  ghost predicate Synced(s: Sys, d: Uuid) {
    d in s.devs && LogStored(s.relay, LogIn(s, d)) && Caught(s, d)
  }

  /** A frame of a share both devices hold alike and belong to, readable for one, is readable for the other. */
  lemma FrameIsShared(s: Sys, d: Uuid, e: Uuid, share: Uuid, f: Frame)
    requires Inv(s) && Synced(s, d) && Synced(s, e)
    requires Belongs(s, e, share) && ListOf(RingIn(s, d), share) == ListOf(RingIn(s, e), share)
    requires f in LogIn(s, d) && Opens(RingIn(s, d), f) && f.blob.rec.shareId == share
    ensures f in LogIn(s, e) && Opens(RingIn(s, e), f)
  {
    assert DevWorld(d, s.devs[d], s.world, s.issued) && DevKeys(s.devs[d]) && DevKeys(s.devs[e]);
    KeyIsOfItsList(RingIn(s, d), f.blob.key);
    assert share in RingIn(s, e);
    assert Stored(s.relay, f.id);
    var i :| 0 <= i < |s.relay.entries| && s.relay.entries[i].frame.id == f.id;
    assert s.relay.entries[i] in s.relay.entries;
    assert s.relay.entries[i].frame == f;
  }

  /** The snapshots of a record of the share that the device can read. */
  ghost function Snapshots(s: Sys, d: Uuid, id: Uuid): set<Record>
    requires d in s.devs
  {
    WithId(Readable(RingIn(s, d), LogIn(s, d)), id)
  }

  /** Both devices are synced, hold the share's keys alike and belong to it. */
  ghost predicate InCommon(s: Sys, d: Uuid, e: Uuid, share: Uuid) {
    && Synced(s, d) && Synced(s, e)
    && Belongs(s, d, share) && Belongs(s, e, share)
    && ListOf(RingIn(s, d), share) == ListOf(RingIn(s, e), share)
  }

  ghost predicate OfShare(rs: set<Record>, share: Uuid) {
    forall r | r in rs :: r.shareId == share
  }

  lemma SnapshotsAreShared(s: Sys, d: Uuid, e: Uuid, share: Uuid, id: Uuid)
    requires Inv(s) && InCommon(s, d, e, share) && OfShare(Snapshots(s, d, id), share)
    ensures Snapshots(s, d, id) <= Snapshots(s, e, id)
  {
    forall r | r in Snapshots(s, d, id) ensures r in Snapshots(s, e, id) {
      var f :| f in LogIn(s, d) && Opens(RingIn(s, d), f) && f.blob.rec == r;
      FrameIsShared(s, d, e, share, f);
    }
  }

  /** All snapshots of a record have one share, on every device. */
  lemma SnapshotsShareOne(s: Sys, d: Uuid, r: Record)
    requires WorldInv(s) && d in s.devs && r in s.issued
    ensures OfShare(Snapshots(s, d, r.id), r.shareId)
  {
    assert DevWorld(d, s.devs[d], s.world, s.issued);
    ReadableIsIssued(RingIn(s, d), LogIn(s, d), s.world, s.issued);
    forall q | q in Snapshots(s, d, r.id) ensures q.shareId == r.shareId {
      assert Fleet.Agree(r, q);
    }
  }

  /** Caught-up devices that have the share of a record in common read the same snapshots of it. */
  lemma SnapshotsAgree(s: Sys, d: Uuid, e: Uuid, r: Record)
    requires Inv(s) && InCommon(s, d, e, r.shareId) && r in Snapshots(s, d, r.id)
    ensures Snapshots(s, d, r.id) == Snapshots(s, e, r.id)
  {
    assert DevWorld(d, s.devs[d], s.world, s.issued);
    ReadableIsIssued(RingIn(s, d), LogIn(s, d), s.world, s.issued);
    SnapshotsShareOne(s, d, r);
    SnapshotsShareOne(s, e, r);
    SnapshotsAreShared(s, d, e, r.shareId, r.id);
    SnapshotsAreShared(s, e, d, r.shareId, r.id);
  }

  ghost function FullState(s: Sys, d: Uuid): State
    requires d in s.devs
  {
    Replay(RingIn(s, d), LogIn(s, d))
  }

  lemma RecordIsJoin(s: Sys, d: Uuid, id: Uuid)
    requires d in s.devs
    ensures id in FullState(s, d) <==> Snapshots(s, d, id) != {}
    ensures id in FullState(s, d) ==>
              FullState(s, d)[id].id == id && IsJoin(FullState(s, d)[id], Snapshots(s, d, id))
  {
    ReplayIsJoin(RingIn(s, d), LogIn(s, d));
    if id in FullState(s, d) {
      assert HasKind(Snapshots(s, d, id), FullState(s, d)[id].kind);
    }
    if Snapshots(s, d, id) != {} {
      var r :| r in Snapshots(s, d, id);
      assert r in Readable(RingIn(s, d), LogIn(s, d));
    }
  }

  lemma SnapshotsCoherent(s: Sys, d: Uuid, id: Uuid)
    requires Inv(s) && d in s.devs
    ensures forall a, b | a in Snapshots(s, d, id) && b in Snapshots(s, d, id) :: Coherent(a, b)
  {
    assert DevWorld(d, s.devs[d], s.world, s.issued);
    ReadableIsIssued(RingIn(s, d), LogIn(s, d), s.world, s.issued);
    ReadableIsCoherent(s, Readable(RingIn(s, d), LogIn(s, d)));
  }

  /** A record of a share two caught-up devices have in common is the same record on both. */
  lemma SharedRecordAgrees(s: Sys, d: Uuid, e: Uuid, id: Uuid)
    requires Inv(s) && d in s.devs && e in s.devs && id in FullState(s, d)
    requires InCommon(s, d, e, FullState(s, d)[id].shareId)
    ensures id in FullState(s, e) && FullState(s, e)[id] == FullState(s, d)[id]
  {
    var rec := FullState(s, d)[id];
    RecordIsJoin(s, d, id);
    RecordIsJoin(s, e, id);
    assert HasStamp(Snapshots(s, d, id), rec.clock, rec.deviceId, rec.shareId);
    var r :| r in Snapshots(s, d, id) && r.shareId == rec.shareId;
    SnapshotsAgree(s, d, e, r);
    SnapshotsCoherent(s, d, id);
    JoinIsUnique(FullState(s, e)[id], rec, Snapshots(s, d, id));
  }

  /** A record in a device's state is of a share whose keys it holds. */
  lemma RecordIsHeld(s: Sys, d: Uuid, id: Uuid)
    requires Inv(s) && d in s.devs && id in FullState(s, d)
    ensures FullState(s, d)[id].shareId in RingIn(s, d)
  {
    var rec := FullState(s, d)[id];
    RecordIsJoin(s, d, id);
    assert HasStamp(Snapshots(s, d, id), rec.clock, rec.deviceId, rec.shareId);
    var r :| r in Snapshots(s, d, id) && r.shareId == rec.shareId;
    var f :| f in LogIn(s, d) && Opens(RingIn(s, d), f) && f.blob.rec == r;
    assert DevWorld(d, s.devs[d], s.world, s.issued) && DevKeys(s.devs[d]);
    KeyIsOfItsList(RingIn(s, d), f.blob.key);
  }

  // ---- the theorems -----------------------------------------------------------------------

  /**
   A quiet sweep of the devices in `part`: each of them pushes between `m` and `p` and completes a pull
   between `p` and `q`, during which only they push; H2 and H3 hold for each of them.
   */
  ghost predicate QuietSweep(ss: seq<Sys>, acts: seq<Action>, part: set<Uuid>, m: nat, p: nat, q: nat) {
    && Run(ss, acts) && m <= p <= q
    && QuietFor(ss, acts, part, m, q) && StillFor(acts, part, p, q)
    && (forall d | d in part :: CarefulRun(ss, acts, d) && PushesIn(acts, m, p, d) && PullsIn(acts, p, q, d))
  }

  lemma SweptAreSynced(ss: seq<Sys>, acts: seq<Action>, part: set<Uuid>, m: nat, p: nat, q: nat, d: Uuid)
    requires QuietSweep(ss, acts, part, m, p, q) && d in part
    ensures Inv(ss[q]) && Synced(ss[q], d)
  {
    RunKeepsInv(ss, acts, q);
    QuietWithin(ss, acts, part, m, q, m, p);
    forall e | e in part ensures e in ss[p].devs && LogStored(ss[p].relay, LogIn(ss[p], e)) {
      PushedIsStored(ss, acts, part, m, p, e);
    }
    QuietWithin(ss, acts, part, m, q, p, q);
    StillTo(ss, acts, part, p, q, q);
    PulledIsCaught(ss, acts, part, p, q, d);
  }

  /**
   After a quiet sweep any two devices that took part agree on every record of every share whose key
   list they both hold alike and to which both belong, for any interleaving of any number of devices.
   */
  lemma SharesConverge(ss: seq<Sys>, acts: seq<Action>, part: set<Uuid>, m: nat, p: nat, q: nat, d: Uuid, e: Uuid,
                       id: Uuid)
    requires QuietSweep(ss, acts, part, m, p, q) && d in part && e in part && d in ss[q].devs && e in ss[q].devs
    requires id in FullState(ss[q], d)
    requires var share := FullState(ss[q], d)[id].shareId;
             && Belongs(ss[q], d, share) && Belongs(ss[q], e, share)
             && ListOf(RingIn(ss[q], d), share) == ListOf(RingIn(ss[q], e), share)
    ensures id in FullState(ss[q], e) && FullState(ss[q], e)[id] == FullState(ss[q], d)[id]
  {
    SweptAreSynced(ss, acts, part, m, p, q, d);
    SweptAreSynced(ss, acts, part, m, p, q, e);
    SharedRecordAgrees(ss[q], d, e, id);
  }

  lemma SyncedAgree(s: Sys, d: Uuid, e: Uuid)
    requires Inv(s) && Synced(s, d) && Synced(s, e) && RingIn(s, d) == RingIn(s, e)
    requires forall share | share in RingIn(s, d) :: Belongs(s, d, share) && Belongs(s, e, share)
    ensures FullState(s, d) == FullState(s, e)
  {
    forall id
      ensures id in FullState(s, d) <==> id in FullState(s, e)
      ensures id in FullState(s, d) ==> FullState(s, e)[id] == FullState(s, d)[id]
    {
      if id in FullState(s, d) {
        RecordIsHeld(s, d, id);
        SharedRecordAgrees(s, d, e, id);
      } else if id in FullState(s, e) {
        RecordIsHeld(s, e, id);
        SharedRecordAgrees(s, e, d, id);
      }
    }
  }

  /**
   After a quiet sweep devices that took part, have the same keyring and belong to the shares they
   hold have identical state when they open their vaults.
   */
  lemma Converges(ss: seq<Sys>, acts: seq<Action>, part: set<Uuid>, m: nat, p: nat, q: nat, d: Uuid, e: Uuid)
    requires QuietSweep(ss, acts, part, m, p, q) && d in part && e in part && d in ss[q].devs && e in ss[q].devs
    requires RingIn(ss[q], d) == RingIn(ss[q], e)
    requires forall share | share in RingIn(ss[q], d) :: Belongs(ss[q], d, share) && Belongs(ss[q], e, share)
    ensures Opened(ss[q].devs[d].dir.disk).state == Opened(ss[q].devs[e].dir.disk).state
  {
    SweptAreSynced(ss, acts, part, m, p, q, d);
    SweptAreSynced(ss, acts, part, m, p, q, e);
    SyncedAgree(ss[q], d, e);
    OpenIsReplay(ss, acts, q, d);
    OpenIsReplay(ss, acts, q, e);
  }
}
