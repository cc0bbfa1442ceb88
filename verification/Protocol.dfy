/**
 The whole system: any number of devices, each a vault directory under any number of handles,
 and one relay. A sync round is a sequence of steps that other devices, other handles and
 other relay requests interleave with.

 Three hypotheses are built into the steps:
 H1  a pull's row query and head query see one relay state (a pull is one relay step);
 H4  key lists of one share are leading parts of one sequence: devices wrap lists they hold,
     and a named share is rotated only from its newest list;
 H6  a handle that writes the keyring or runs a round holds the keyring that is on disk, and
     the keyring is not written by another handle during a round.
 A round has its handle to itself: the code borrows it for the whole round.

 Two more concern single devices, are predicates on actions (`Careful`), and are assumed only
 where cursors matter:
 H2  a round that has gained a share is interrupted before it finishes only while no cursor, on
     disk or in any open handle, is above zero;
 H3  a device is granted a share it already holds only while it still belongs to it, or before
     the share's first grant.
 H5 concerns causality only and is stated where it is used (module Causality). Clocks and coherence
 need no hypothesis: they are proved in module Fleet, for runs with none of these.
 */
module Protocol {
  import opened Wrappers
  import opened Records
  import opened Keyrings
  import opened VaultSpec
  import opened VaultRuns
  import opened RelaySpec

  /** One row of a membership reply, unwrapped for this device. */
  datatype Offer = Offer(share: Uuid, epoch: int, keys: seq<Key>)

  /**
   Where a device's sync round stands. `gained` are the shares new to the device in this round, and
   `rewound` tells whether the cursor was reset for them.
   */
  datatype Phase =
    | Idle
    | Healing(h: nat, gained: set<Uuid>, todo: seq<Offer>)
    | Pushing(h: nat, gained: set<Uuid>, local: seq<TaggedFrame>)
    | Pushed(h: nat, gained: set<Uuid>, have: set<Uuid>, rewound: bool)
    | Applying(h: nat, gained: set<Uuid>, have: set<Uuid>, rest: seq<Frame>, head: nat)

  datatype Dev = Dev(dir: Dir, phase: Phase)

  /**
   `world` holds every frame ever sealed and `issued` every record that ever got a clock.
   `minted` counts the keys of each share, `owner` names the creator of a named share, `granted`
   are the shares with a grant so far, and `belonged` the (share, device) pairs that ever had a
   membership row. These are history, not state of the program.
   */
  datatype Sys = Sys(
    relay: Relay,
    devs: map<Uuid, Dev>,
    world: set<Frame>,
    issued: set<Record>,
    minted: map<Uuid, nat>,
    owner: map<Uuid, Uuid>,
    granted: set<Uuid>,
    belonged: set<(Uuid, Uuid)>)

  /** What one device can do. `ReadLog` to `Finish` are the rest of a round; `Abort` ends one early. */
  datatype DevOp =
    | Local(hd: nat, op: LocalOp)
    | CreateShare(hd: nat, share: Uuid)
    | RotateKey(hd: nat, share: Uuid)
    | BeginRound(hd: nat)
    | HealDefault
    | FetchShares(offers: seq<Offer>)
    | AbsorbNext
    | ReadLog
    | PushLog
    | Rewind
    | PullPast
    | ApplyNext
    | Finish
    | Abort

  datatype Action =
    | Join(d: Uuid, list: seq<Key>)
    | Act(d: Uuid, op: DevOp)
    | Request(d: Uuid, now: int, body: Body)
    | Recovery(q: Recover)
    | Foreign(now: int, sig: Sig, rows: nat)

  // ---- keys --------------------------------------------------------------------

  /** A list that is a leading part of the share's one sequence of keys. */
  predicate ChainList(share: Uuid, keys: seq<Key>) {
    keys != [] && forall i | 0 <= i < |keys| :: keys[i] == Key(share, i)
  }

  predicate WrapsOwnList(ring: Ring, share: Uuid, ws: seq<WrappedFor>) {
    forall w | w in ws ::
      && w.wrapped.recipient == w.device
      && w.wrapped.keys != []
      && w.wrapped.keys <= ListOf(ring, share)
  }

  /** What the clients of device.rs put into their requests: lists they hold, wrapped for the recipient. */
  predicate ClientBuilt(ring: Ring, body: Body) {
    match body
    case Enroll(_, _, _, _) => true
    case Approve(target, wrapped) => WrapsOwnList(ring, NIL, [WrappedFor(target, wrapped)])
    case Revoke(_) => true
    case Rotate(_, ws) => WrapsOwnList(ring, NIL, ws)
    case ShareGrant(share, _, ws) => share != NIL && share in ring && WrapsOwnList(ring, share, ws)
    case ShareRotate(share, _, ws, _) => share != NIL && share in ring && WrapsOwnList(ring, share, ws)
    case _ => false
  }

  predicate Holds(s: Sys, d: Uuid, share: Uuid) {
    d in s.devs && share in s.devs[d].dir.disk.ring
  }

  // ---- one device --------------------------------------------------------------

  /** H6: a round's handle exists, is between writes and holds the keyring that is on disk. */
  predicate InRound(dev: Dev) {
    && !dev.phase.Idle?
    && dev.phase.h in dev.dir.handles
    && dev.dir.handles[dev.phase.h].pending.None?
    && dev.dir.handles[dev.phase.h].ring == dev.dir.disk.ring
  }

  /** H6: so does a handle that writes the keyring outside a round. */
  predicate WritesKeys(dev: Dev, hd: nat) {
    && dev.phase.Idle?
    && hd in dev.dir.handles
    && dev.dir.handles[hd].pending.None?
    && dev.dir.handles[hd].ring == dev.dir.disk.ring
  }

  /** The shares new to the device in the round it is in. */
  function GainedOf(p: Phase): set<Uuid> {
    if p.Idle? then {} else p.gained
  }

  predicate OffersAreRows(r: Relay, d: Uuid, offers: seq<Offer>) {
    forall o | o in offers ::
      && o.share != NIL
      && (o.share, d) in r.members
      && r.members[(o.share, d)] == Wrapped(d, o.keys)
      && o.epoch == (if o.share in r.shareEpochs then r.shareEpochs[o.share] else 0)
  }

  predicate DevEnabled(dev: Dev, r: Relay, d: Uuid, op: DevOp) {
    match op
    case Local(hd, lop) =>
      && LocalEnabled(dev.dir, hd, lop)
      && (lop.Open? || lop.Close? || lop.Issue? || lop.Append? || lop.Reload? || lop.Compact?)
      && (dev.phase.Idle? || dev.phase.h != hd)
    case CreateShare(hd, share) => WritesKeys(dev, hd) && share !in dev.dir.disk.ring
    case RotateKey(hd, share) => WritesKeys(dev, hd) && share in dev.dir.disk.ring
    case BeginRound(hd) => WritesKeys(dev, hd)
    case HealDefault => InRound(dev) && dev.phase.Healing? && DoWrapped(r, d).reply.Wrapping?
    case FetchShares(offers) => InRound(dev) && dev.phase.Healing? && CanSync(r, d) && OffersAreRows(r, d, offers)
    case AbsorbNext => InRound(dev) && dev.phase.Healing? && dev.phase.todo != []
    case ReadLog => InRound(dev) && dev.phase.Healing? && dev.phase.todo == []
    case PushLog => InRound(dev) && dev.phase.Pushing? && CanSync(r, d)
    case Rewind => InRound(dev) && dev.phase.Pushed? && dev.phase.gained != {} && !dev.phase.rewound
    case PullPast => InRound(dev) && dev.phase.Pushed? && (dev.phase.gained == {} || dev.phase.rewound) && CanSync(r, d)
    case ApplyNext => InRound(dev) && dev.phase.Applying? && dev.phase.rest != []
    case Finish => InRound(dev) && dev.phase.Applying? && dev.phase.rest == []
    case Abort => !dev.phase.Idle?
  }

  /** Writes a longer key list through a handle; a list that is not longer changes nothing. */
  function Absorbing(dir: Dir, hd: nat, share: Uuid, keys: seq<Key>): Dir
    requires hd in dir.handles && dir.handles[hd].pending.None? && dir.handles[hd].ring == dir.disk.ring
  {
    if |keys| > |ListOf(dir.disk.ring, share)| then LocalNext(dir, hd, Grow(share, keys)) else dir
  }

  /** A share's current epoch as a device counts it: keys held less one. */
  function EpochOf(ring: Ring, share: Uuid): int {
    if share in ring then |ring[share]| - 1 else 0
  }

  function Healed(dev: Dev, r: Relay, d: Uuid): Dir
    requires InRound(dev) && DoWrapped(r, d).reply.Wrapping?
  {
    var reply := DoWrapped(r, d).reply;
    if reply.epoch > EpochOf(dev.dir.disk.ring, NIL) && reply.list.Some? && reply.list.value.recipient == d
    then Absorbing(dev.dir, dev.phase.h, NIL, reply.list.value.keys) else dev.dir
  }

  function AfterAbsorb(dev: Dev): Dev
    requires InRound(dev) && dev.phase.Healing? && dev.phase.todo != []
  {
    var p, o := dev.phase, dev.phase.todo[0];
    var had := o.share in dev.dir.disk.ring;
    var dir := if !had || o.epoch > EpochOf(dev.dir.disk.ring, o.share)
               then Absorbing(dev.dir, p.h, o.share, o.keys) else dev.dir;
    Dev(dir, Healing(p.h, if had then p.gained else p.gained + {o.share}, p.todo[1..]))
  }

  function FramesOf(rows: seq<EntryRow>): seq<Frame> {
    seq(|rows|, i requires 0 <= i < |rows| => rows[i].frame)
  }

  function IdsOf(local: seq<TaggedFrame>): set<Uuid> {
    set t | t in local :: t.frame.id
  }

  function AfterPull(dev: Dev, r: Relay, d: Uuid): Dev
    requires InRound(dev) && dev.phase.Pushed?
  {
    var p, since := dev.phase, dev.dir.handles[dev.phase.h].meta.cursor;
    dev.(phase := Applying(p.h, p.gained, p.have, FramesOf(PullRows(r, r.entries, d, since)), MaxNat(Head(r), since)))
  }

  /** Entries the round's push already listed are skipped; the others are applied. */
  function AfterApply(dev: Dev): Dev
    requires InRound(dev) && dev.phase.Applying? && dev.phase.rest != []
  {
    var p := dev.phase;
    Dev(if p.rest[0].id in p.have then dev.dir else LocalNext(dev.dir, p.h, Apply(p.rest[0])),
        Applying(p.h, p.gained, p.have, p.rest[1..], p.head))
  }

  function DevNext(dev: Dev, r: Relay, d: Uuid, op: DevOp): Dev
    requires DevEnabled(dev, r, d, op)
  {
    match op
    case Local(hd, lop) => dev.(dir := LocalNext(dev.dir, hd, lop))
    case CreateShare(hd, share) => dev.(dir := LocalNext(dev.dir, hd, Grow(share, [Key(share, 0)])))
    case RotateKey(hd, share) =>
      var list := dev.dir.disk.ring[share];
      dev.(dir := LocalNext(dev.dir, hd, Grow(share, list + [Key(share, |list|)])))
    case BeginRound(hd) => dev.(phase := Healing(hd, {}, []))
    case HealDefault => dev.(dir := Healed(dev, r, d))
    case FetchShares(offers) => dev.(phase := Healing(dev.phase.h, dev.phase.gained, offers))
    case AbsorbNext => AfterAbsorb(dev)
    case ReadLog =>
      dev.(phase := Pushing(dev.phase.h, dev.phase.gained, TaggedLog(dev.dir.disk.ring, dev.dir.disk.log)))
    case PushLog => dev.(phase := Pushed(dev.phase.h, dev.phase.gained, IdsOf(dev.phase.local), false))
    case Rewind =>
      Dev(LocalNext(dev.dir, dev.phase.h, ResetCursor), Pushed(dev.phase.h, dev.phase.gained, dev.phase.have, true))
    case PullPast => AfterPull(dev, r, d)
    case ApplyNext => AfterApply(dev)
    case Finish => Dev(LocalNext(dev.dir, dev.phase.h, SetCursor(dev.phase.head)), Idle)
    case Abort => dev.(phase := Idle)
  }

  // ---- the system ----------------------------------------------------------------

  /** H4 for the keys a device mints, and freshness of the ids it draws. */
  predicate FreshAndChained(s: Sys, d: Uuid, op: DevOp)
    requires d in s.devs
  {
    match op
    case Local(_, Issue(AddIntent(id, _, _, _), _)) => forall r | r in s.issued :: r.id != id
    case Local(_, Append(entry)) => forall f | f in s.world :: f.id != entry
    case CreateShare(_, share) => share != NIL && share !in s.minted
    case RotateKey(_, share) =>
      share == NIL || (share in s.minted && s.minted[share] == |ListOf(s.devs[d].dir.disk.ring, share)|)
    case _ => true
  }

  predicate Enabled(s: Sys, a: Action) {
    match a
    case Join(d, list) =>
      && d !in s.devs
      && (list == [Key(NIL, 0)] || (d in s.relay.devices && s.relay.devices[d].wrapped == Some(Wrapped(d, list))))
    case Act(d, op) => d in s.devs && DevEnabled(s.devs[d], s.relay, d, op) && FreshAndChained(s, d, op)
    case Request(d, now, body) =>
      ClientBuilt(if d in s.devs then s.devs[d].dir.disk.ring else map[], body)
    case Recovery(_) => true
    case Foreign(_, _, _) => true
  }

  function NewFrames(dev: Dev, op: DevOp): set<Frame> {
    if op.Local? then SealedBy(dev.dir, op.hd, op.op) else {}
  }

  function NewDrafts(dev: Dev, op: DevOp): set<Record> {
    if op.Local? then DraftedBy(dev.dir, op.hd, op.op) else {}
  }

  function NewMinted(s: Sys, d: Uuid, op: DevOp): map<Uuid, nat>
    requires d in s.devs
  {
    match op
    case CreateShare(_, share) => s.minted[share := 1]
    case RotateKey(_, share) =>
      var before := if share in s.minted then s.minted[share] else 0;
      s.minted[share := MaxNat(|ListOf(s.devs[d].dir.disk.ring, share)| + 1, before)]
    case _ => s.minted
  }

  function Answer(r: Relay, d: Uuid, now: int, body: Body): Relay {
    Serve(r, now, Signed(d, Sig(d, now, body), now, body)).relay
  }

  function Next(s: Sys, a: Action): Sys
    requires Enabled(s, a)
  {
    match a
    case Join(d, list) => s.(devs := s.devs[d := Dev(NewDir(d, list), Idle)])
    case Act(d, op) =>
      s.(devs := s.devs[d := DevNext(s.devs[d], s.relay, d, op)],
         relay := if op.PushLog? then StoreAll(s.relay, s.devs[d].phase.local) else s.relay,
         world := s.world + NewFrames(s.devs[d], op),
         issued := s.issued + NewDrafts(s.devs[d], op),
         minted := NewMinted(s, d, op),
         owner := if op.CreateShare? then s.owner[op.share := d] else s.owner)
    case Request(d, now, body) =>
      var r' := Answer(s.relay, d, now, body);
      s.(relay := r',
         belonged := s.belonged + r'.members.Keys,
         granted := if body.ShareGrant? && CanSync(s.relay, d) then s.granted + {body.share} else s.granted)
    case Recovery(q) => s.(relay := DoRecover(s.relay, q).relay)
    case Foreign(now, sig, rows) =>
      s.(relay := s.relay.(seen := MarkSeen(s.relay.seen, now, sig).0, lastSeq := s.relay.lastSeq + rows))
  }

  const START := Sys(EMPTY, map[], {}, {}, map[], map[], {}, {})

  // ---- hypotheses on actions ---------------------------------------------------------

  predicate AllAtZero(dir: Dir) {
    dir.disk.meta.cursor == 0 && forall h | h in dir.handles :: dir.handles[h].meta.cursor == 0
  }

  /** H2 for the rounds of one device. */
  predicate EndsRoundSafely(s: Sys, a: Action, d: Uuid) {
    a == Act(d, Abort) && d in s.devs ==> GainedOf(s.devs[d].phase) == {} || AllAtZero(s.devs[d].dir)
  }

  /** The relay accepts a grant of the share to the device. */
  predicate GrantsTo(s: Sys, a: Action, share: Uuid, d: Uuid) {
    && a.Request? && a.body.ShareGrant? && a.body.share == share && CanSync(s.relay, a.d)
    && exists w :: w in a.body.wrapped && w.device == d
  }

  /** H3 for the accepted grants to one device. */
  predicate GrantsAnew(s: Sys, a: Action, d: Uuid) {
    a.Request? && a.body.ShareGrant? && GrantsTo(s, a, a.body.share, d) ==>
      (a.body.share, d) in s.relay.members || !Holds(s, d, a.body.share) || a.body.share !in s.granted
  }

  /** H2 and H3 as far as they concern one device. */
  predicate Careful(s: Sys, a: Action, d: Uuid) {
    EndsRoundSafely(s, a, d) && GrantsAnew(s, a, d)
  }
}
