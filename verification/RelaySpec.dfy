/**
 The relay on values: its tables, seen from one vault, and what each handler does to them.

 Rows of other vaults only show as jumps of the shared sequence counter and as uses of the
 shared signature cache. Blobs and wrapped key lists are opaque: no handler looks inside them.
 Signatures are ideal: one names its signer, its timestamp and its body, and nothing else makes it.
 */
module RelaySpec {
  import opened Wrappers
  import opened Records
  import opened Keyrings
  import opened VaultSpec

  /** A device's Ed25519 public key, which is its identity at the relay. */
  type Pub = nat

  const MAX_SKEW_SECS := 300

  /** A key list sealed for one recipient; it opens for that recipient only. */
  datatype Wrapped = Wrapped(recipient: Pub, keys: seq<Key>)

  datatype WrappedFor = WrappedFor(device: Pub, wrapped: Wrapped)

  datatype DeviceRow = DeviceRow(xpub: nat, name: string, approved: bool, revoked: bool, wrapped: Option<Wrapped>)

  datatype VaultRow = VaultRow(recoveryPub: nat, epoch: int)

  datatype EntryRow = EntryRow(seqno: nat, frame: Frame, share: Uuid)

  datatype Body =
    | Enroll(pub: Pub, xpub: nat, name: string, recoveryPub: nat)
    | Approve(target: Pub, wrappedKey: Wrapped)
    | Revoke(target: Pub)
    | Rotate(epoch: nat, wrapped: seq<WrappedFor>)
    | ShareGrant(share: Uuid, epoch: nat, wrapped: seq<WrappedFor>)
    | ShareRotate(share: Uuid, epoch: nat, wrapped: seq<WrappedFor>, remove: seq<Pub>)
    | Push(entries: seq<TaggedFrame>)
    | Pull(since: nat)
    | GetShares
    | GetDevices
    | GetWrapped

  datatype Sig = Sig(signer: Pub, ts: int, body: Body)

  datatype Signed = Signed(device: Pub, sig: Sig, ts: int, body: Body)

  /** Not a signed envelope: the recovery key signs the new device's key. */
  datatype Recover = Recover(recoveryPub: nat, pub: Pub, xpub: nat, name: string, signedBy: nat, signedPub: Pub)

  datatype Relay = Relay(
    vault: Option<VaultRow>,
    devices: map<Pub, DeviceRow>,
    entries: seq<EntryRow>,
    lastSeq: nat,
    shareEpochs: map<Uuid, int>,
    members: map<(Uuid, Pub), Wrapped>,
    seen: map<Sig, int>)

  datatype Status = BadRequest | Unauthorized | Forbidden | NotFound | Conflict

  datatype Membership = Membership(epoch: int, wrapped: Wrapped)

  datatype Reply =
    | Rejected(status: Status)
    | Enrolled(approved: bool, head: nat)
    | Done(head: nat, stored: nat)
    | Pulled(rows: seq<EntryRow>, head: nat)
    | Wrapping(approved: bool, list: Option<Wrapped>, epoch: int)
    | Shares(memberships: map<Uuid, Membership>)
    | Devices(table: map<Pub, DeviceRow>)

  datatype Outcome = Outcome(relay: Relay, reply: Reply)

  const EMPTY := Relay(None, map[], [], 0, map[], map[], map[])

  // ---- authentication --------------------------------------------------------

  predicate InWindow(now: int, ts: int) {
    -MAX_SKEW_SECS <= now - ts <= MAX_SKEW_SECS
  }

  predicate Verifies(now: int, s: Signed) {
    InWindow(now, s.ts) && s.sig == Sig(s.device, s.ts, s.body)
  }

  function Unexpired(seen: map<Sig, int>, now: int): map<Sig, int> {
    map g | g in seen && seen[g] >= now :: seen[g]
  }

  /** The cache after one use, and whether the signature was new to it. */
  function MarkSeen(seen: map<Sig, int>, now: int, sig: Sig): (map<Sig, int>, bool) {
    var live := Unexpired(seen, now);
    if sig in live then (live, false) else (live[sig := now + MAX_SKEW_SECS], true)
  }

  predicate CanSync(r: Relay, p: Pub) {
    p in r.devices && r.devices[p].approved && !r.devices[p].revoked
  }

  function Head(r: Relay): nat {
    if r.entries == [] then 0 else r.entries[|r.entries| - 1].seqno
  }

  function Refuse(r: Relay, status: Status): Outcome {
    Outcome(r, Rejected(status))
  }

  // ---- devices ----------------------------------------------------------------

  function DoEnroll(r: Relay, p: Pub, body: Body): Outcome
    requires body.Enroll?
  {
    if body.pub != p then Refuse(r, BadRequest)
    else if p in r.devices && r.devices[p].revoked then Refuse(r, Forbidden)
    else
      var bootstrap := r.vault.None?;
      var row := if p in r.devices then r.devices[p].(name := body.name, xpub := body.xpub)
                 else DeviceRow(body.xpub, body.name, bootstrap, false, None);
      var r' := r.(vault := if bootstrap then Some(VaultRow(body.recoveryPub, 0)) else r.vault,
                   devices := r.devices[p := row]);
      Outcome(r', Enrolled(bootstrap, Head(r)))
  }

  function DoApprove(r: Relay, p: Pub, target: Pub, wrapped: Wrapped): Outcome {
    if !CanSync(r, p) then Refuse(r, Forbidden)
    else if !(target in r.devices && !r.devices[target].revoked) then Refuse(r, NotFound)
    else
      var row := r.devices[target].(approved := true, wrapped := Some(wrapped));
      Outcome(r.(devices := r.devices[target := row]), Done(Head(r), 0))
  }

  function DoRevoke(r: Relay, p: Pub, target: Pub): Outcome {
    if !CanSync(r, p) then Refuse(r, Forbidden)
    else if target !in r.devices then Refuse(r, NotFound)
    else
      var row := r.devices[target].(revoked := true, approved := false, wrapped := None);
      Outcome(r.(devices := r.devices[target := row]), Done(Head(r), 0))
  }

  /** Re-wrapped lists reach only rows that exist and are not revoked. */
  function WithWraps(devices: map<Pub, DeviceRow>, ws: seq<WrappedFor>): map<Pub, DeviceRow> {
    if ws == [] then devices
    else
      var ds, w := WithWraps(devices, ws[..|ws| - 1]), ws[|ws| - 1];
      if w.device in ds && !ds[w.device].revoked
      then ds[w.device := ds[w.device].(wrapped := Some(w.wrapped))] else ds
  }

  function DoRotate(r: Relay, now: int, s: Signed): Outcome
    requires s.body.Rotate?
  {
    if !CanSync(r, s.device) then Refuse(r, Forbidden)
    else
      var (seen, unseen) := MarkSeen(r.seen, now, s.sig);
      var marked := r.(seen := seen);
      if !unseen then Refuse(marked, Conflict)
      else if !(r.vault.Some? && r.vault.value.epoch == s.body.epoch - 1) then Refuse(marked, Conflict)
      else
        Outcome(marked.(vault := Some(r.vault.value.(epoch := s.body.epoch)),
                        devices := WithWraps(r.devices, s.body.wrapped)), Done(Head(r), 0))
  }

  /** Admits a device as approved on proof of the recovery phrase. */
  function DoRecover(r: Relay, q: Recover): Outcome {
    if !(q.signedBy == q.recoveryPub && q.signedPub == q.pub) then Refuse(r, Unauthorized)
    else if !(r.vault.Some? && r.vault.value.recoveryPub == q.recoveryPub) then Refuse(r, NotFound)
    else
      var row := if q.pub in r.devices then r.devices[q.pub].(approved := true, revoked := false, xpub := q.xpub)
                 else DeviceRow(q.xpub, q.name, true, false, None);
      Outcome(r.(devices := r.devices[q.pub := row]), Done(Head(r), 0))
  }

  // ---- shares -----------------------------------------------------------------

  function WithMembers(members: map<(Uuid, Pub), Wrapped>, share: Uuid, ws: seq<WrappedFor>): map<(Uuid,
                       Pub), Wrapped> {
    if ws == [] then members
    else WithMembers(members, share, ws[..|ws| - 1])[(share, ws[|ws| - 1].device) := ws[|ws| - 1].wrapped]
  }

  /** Rotation re-keys existing members only. */
  function Rewrapped(members: map<(Uuid, Pub), Wrapped>, share: Uuid, ws: seq<WrappedFor>): map<(Uuid, Pub), Wrapped> {
    if ws == [] then members
    else
      var ms, w := Rewrapped(members, share, ws[..|ws| - 1]), ws[|ws| - 1];
      if (share, w.device) in ms then ms[(share, w.device) := w.wrapped] else ms
  }

  function WithoutMembers(members: map<(Uuid, Pub), Wrapped>, share: Uuid, gone: seq<Pub>): map<(Uuid, Pub), Wrapped> {
    if gone == [] then members
    else WithoutMembers(members, share, gone[..|gone| - 1]) - {(share, gone[|gone| - 1])}
  }

  function DoGrant(r: Relay, p: Pub, share: Uuid, epoch: nat, ws: seq<WrappedFor>): Outcome {
    if !CanSync(r, p) then Refuse(r, Forbidden)
    else
      var raised := if share in r.shareEpochs then Max(r.shareEpochs[share], epoch) else epoch;
      Outcome(r.(shareEpochs := r.shareEpochs[share := raised],
                 members := WithMembers(r.members, share, ws)), Done(Head(r), 0))
  }

  function DoShareRotate(r: Relay, now: int, s: Signed): Outcome
    requires s.body.ShareRotate?
  {
    var b := s.body;
    if !CanSync(r, s.device) then Refuse(r, Forbidden)
    else
      var (seen, unseen) := MarkSeen(r.seen, now, s.sig);
      var marked := r.(seen := seen);
      if !unseen then Refuse(marked, Conflict)
      else if b.share in r.shareEpochs && r.shareEpochs[b.share] != b.epoch - 1 then Refuse(marked, Conflict)
      else
        Outcome(marked.(shareEpochs := r.shareEpochs[b.share := b.epoch],
                        members := Rewrapped(WithoutMembers(r.members, b.share, b.remove), b.share, b.wrapped)),
                Done(Head(r), 0))
  }

  function MembershipsOf(r: Relay, p: Pub): map<Uuid, Membership> {
    map k | k in r.members && k.1 == p ::
      k.0 := Membership(if k.0 in r.shareEpochs then r.shareEpochs[k.0] else 0, r.members[k])
  }

  // ---- entries ----------------------------------------------------------------

  predicate Stored(r: Relay, id: Uuid) {
    exists i | 0 <= i < |r.entries| :: r.entries[i].frame.id == id
  }

  /** An entry id is stored once; a later copy is ignored whatever its blob or share. */
  function Store(r: Relay, e: TaggedFrame): Relay {
    if Stored(r, e.frame.id) then r
    else r.(entries := r.entries + [EntryRow(r.lastSeq + 1, e.frame, e.share)], lastSeq := r.lastSeq + 1)
  }

  function StoreAll(r: Relay, es: seq<TaggedFrame>): Relay {
    if es == [] then r else Store(StoreAll(r, es[..|es| - 1]), es[|es| - 1])
  }

  function DoPush(r: Relay, p: Pub, es: seq<TaggedFrame>): Outcome {
    if !CanSync(r, p) then Refuse(r, Forbidden)
    else
      var r' := StoreAll(r, es);
      Outcome(r', Done(Head(r'), if |r'.entries| >= |r.entries| then |r'.entries| - |r.entries| else 0))
  }

  predicate MayPull(r: Relay, p: Pub, row: EntryRow) {
    row.share == NIL || (row.share, p) in r.members
  }

  /** The rows past `since` that are in the default share or in a share the device belongs to. */
  function PullRows(r: Relay, rows: seq<EntryRow>, p: Pub, since: nat): seq<EntryRow> {
    if rows == [] then []
    else
      var front, last := PullRows(r, rows[..|rows| - 1], p, since), rows[|rows| - 1];
      if last.seqno > since && MayPull(r, p, last) then front + [last] else front
  }

  function DoPull(r: Relay, p: Pub, since: nat): Outcome {
    if !CanSync(r, p) then Refuse(r, Forbidden)
    else Outcome(r, Pulled(PullRows(r, r.entries, p, since), MaxNat(Head(r), since)))
  }

  function DoWrapped(r: Relay, p: Pub): Outcome {
    if p !in r.devices then Refuse(r, NotFound)
    else if r.devices[p].revoked then Refuse(r, Forbidden)
    else
      var epoch := if r.vault.Some? then r.vault.value.epoch else 0;
      Outcome(r, Wrapping(r.devices[p].approved, r.devices[p].wrapped, epoch))
  }

  // ---- dispatch ---------------------------------------------------------------

  function Serve(r: Relay, now: int, s: Signed): Outcome {
    if !Verifies(now, s) then Refuse(r, Unauthorized)
    else
      match s.body
      case Enroll(_, _, _, _) => DoEnroll(r, s.device, s.body)
      case Approve(target, wrapped) => DoApprove(r, s.device, target, wrapped)
      case Revoke(target) => DoRevoke(r, s.device, target)
      case Rotate(_, _) => DoRotate(r, now, s)
      case ShareGrant(share, epoch, ws) => DoGrant(r, s.device, share, epoch, ws)
      case ShareRotate(_, _, _, _) => DoShareRotate(r, now, s)
      case Push(es) => DoPush(r, s.device, es)
      case Pull(since) => DoPull(r, s.device, since)
      case GetShares =>
        if CanSync(r, s.device) then Outcome(r, Shares(MembershipsOf(r, s.device))) else Refuse(r, Forbidden)
      case GetDevices =>
        if CanSync(r, s.device) then Outcome(r, Devices(r.devices)) else Refuse(r, Forbidden)
      case GetWrapped => DoWrapped(r, s.device)
  }

  // ---- facts about the table updates ------------------------------------------

  /** Re-wrapping changes nothing but the wrapped lists of non-revoked rows, and leaves the last list sent. */
  lemma {:induction false} WrapsReachLiveRows(devices: map<Pub, DeviceRow>, ws: seq<WrappedFor>)
    ensures WithWraps(devices, ws).Keys == devices.Keys
    ensures forall p | p in devices ::
              var row := WithWraps(devices, ws)[p];
              && row == devices[p].(wrapped := row.wrapped)
              && (devices[p].revoked ==> row == devices[p])
              && (row.wrapped == devices[p].wrapped ||
                  exists i | 0 <= i < |ws| :: ws[i].device == p && row.wrapped == Some(ws[i].wrapped))
    ensures forall p | p in devices && !devices[p].revoked && (exists i | 0 <= i < |ws| :: ws[i].device == p) ::
              exists i | 0 <= i < |ws| :: ws[i].device == p && WithWraps(devices, ws)[p].wrapped == Some(ws[i].wrapped)
  {
    if ws != [] {
      WrapsReachLiveRows(devices, ws[..|ws| - 1]);
    }
  }

  lemma {:induction false} WithMembersKeys(members: map<(Uuid, Pub), Wrapped>, share: Uuid, ws: seq<WrappedFor>)
    ensures forall k :: k in WithMembers(members, share, ws) <==>
              k in members || (k.0 == share && exists i | 0 <= i < |ws| :: ws[i].device == k.1)
    ensures forall k | k in WithMembers(members, share, ws) ::
              || (k in members && WithMembers(members, share, ws)[k] == members[k])
              || (k.0 == share && exists i | 0 <= i < |ws| ::
                  ws[i].device == k.1 && WithMembers(members, share, ws)[k] == ws[i].wrapped)
    ensures forall p | exists i | 0 <= i < |ws| :: ws[i].device == p ::
              exists i | 0 <= i < |ws| ::
                  ws[i].device == p && WithMembers(members, share, ws)[(share, p)] == ws[i].wrapped
  {
    if ws != [] {
      WithMembersKeys(members, share, ws[..|ws| - 1]);
    }
  }

  lemma {:induction false} WithoutMembersKeys(members: map<(Uuid, Pub), Wrapped>, share: Uuid, gone: seq<Pub>)
    ensures forall k :: k in WithoutMembers(members, share, gone) <==> k in members && !(k.0 == share && k.1 in gone)
    ensures forall k | k in WithoutMembers(members, share, gone) ::
              WithoutMembers(members, share, gone)[k] == members[k]
  {
    if gone != [] {
      WithoutMembersKeys(members, share, gone[..|gone| - 1]);
      assert gone == gone[..|gone| - 1] + [gone[|gone| - 1]];
    }
  }

  lemma {:induction false} RewrappedKeys(members: map<(Uuid, Pub), Wrapped>, share: Uuid, ws: seq<WrappedFor>)
    ensures Rewrapped(members, share, ws).Keys == members.Keys
    ensures forall k | k in members ::
              || Rewrapped(members, share, ws)[k] == members[k]
              || (k.0 == share && exists i | 0 <= i < |ws| ::
                  ws[i].device == k.1 && Rewrapped(members, share, ws)[k] == ws[i].wrapped)
  {
    if ws != [] {
      RewrappedKeys(members, share, ws[..|ws| - 1]);
    }
  }

  // ---- the entry table ----------------------------------------------------------

  /** Sequence numbers strictly increase up to the counter and entry ids are unique. */
  ghost predicate TableOk(r: Relay) {
    && InOrder(r.entries)
    && (forall i, j | 0 <= i < j < |r.entries| :: r.entries[i].frame.id != r.entries[j].frame.id)
    && (forall i | 0 <= i < |r.entries| :: 0 < r.entries[i].seqno <= r.lastSeq)
  }

  /** A row that a push added: numbered past the counter, its id not stored before, and sent as it stands. */
  ghost predicate NewRow(r: Relay, row: EntryRow, es: seq<TaggedFrame>) {
    row.seqno > r.lastSeq && !Stored(r, row.frame.id) && TaggedFrame(row.frame, row.share) in es
  }

  /** `r'` is `r` with rows of `es` added at the end of the entry table. */
  ghost predicate Extends(r: Relay, r': Relay, es: seq<TaggedFrame>) {
    && TableOk(r')
    && r.entries <= r'.entries
    && r.lastSeq <= r'.lastSeq
    && r' == r.(entries := r'.entries, lastSeq := r'.lastSeq)
    && (forall i | |r.entries| <= i < |r'.entries| :: NewRow(r, r'.entries[i], es))
  }

  /** Every id of the log is stored. */
  ghost predicate LogStored(r: Relay, log: seq<Frame>) {
    forall f | f in log :: Stored(r, f.id)
  }

  /** A push touches nothing but the entry table and its counter. */
  lemma {:induction false} StoreAllFrame(r: Relay, es: seq<TaggedFrame>)
    ensures StoreAll(r, es) == r.(entries := StoreAll(r, es).entries, lastSeq := StoreAll(r, es).lastSeq)
  {
    if es != [] {
      StoreAllFrame(r, es[..|es| - 1]);
    }
  }

  lemma StoredStays(r: Relay, r': Relay)
    requires r.entries <= r'.entries
    ensures forall id | Stored(r, id) :: Stored(r', id)
  {
    forall id | Stored(r, id) ensures Stored(r', id) {
      var i :| 0 <= i < |r.entries| && r.entries[i].frame.id == id;
      assert r'.entries[i].frame.id == id;
    }
  }

  lemma StoreExtends(r: Relay, e: TaggedFrame)
    requires TableOk(r)
    ensures Extends(r, Store(r, e), [e]) && Stored(Store(r, e), e.frame.id)
  {
    var r' := Store(r, e);
    if !Stored(r, e.frame.id) {
      assert r'.entries[|r.entries|].frame.id == e.frame.id;
      assert forall i | 0 <= i < |r.entries| :: r.entries[i].frame.id != e.frame.id;
    }
  }

  lemma ExtendsThen(r: Relay, mid: Relay, r': Relay, es: seq<TaggedFrame>, more: seq<TaggedFrame>)
    requires Extends(r, mid, es) && Extends(mid, r', more)
    ensures Extends(r, r', es + more)
  {
    StoredStays(r, mid);
    forall i | |r.entries| <= i < |r'.entries| ensures NewRow(r, r'.entries[i], es + more) {
      if i < |mid.entries| {
        assert r'.entries[i] == mid.entries[i];
        assert NewRow(r, mid.entries[i], es);
      } else {
        assert NewRow(mid, r'.entries[i], more);
      }
    }
  }

  /** A push keeps every old row, adds only rows that were sent, and leaves every id it sent stored. */
  lemma {:induction false} StoreAllAppends(r: Relay, es: seq<TaggedFrame>)
    requires TableOk(r)
    ensures Extends(r, StoreAll(r, es), es)
    ensures forall e | e in es :: Stored(StoreAll(r, es), e.frame.id)
  {
    if es != [] {
      var front, last := es[..|es| - 1], es[|es| - 1];
      var mid := StoreAll(r, front);
      StoreAllAppends(r, front);
      StoreExtends(mid, last);
      ExtendsThen(r, mid, StoreAll(r, es), front, [last]);
      StoredStays(mid, StoreAll(r, es));
      assert es == front + [last];
    }
  }

  ghost predicate InOrder(rows: seq<EntryRow>) {
    forall i, j | 0 <= i < j < |rows| :: rows[i].seqno < rows[j].seqno
  }

  /** A pull returns exactly the rows past the cursor that the device may have, in their order. */
  lemma {:induction false} PullReturnsExactly(r: Relay, rows: seq<EntryRow>, p: Pub, since: nat)
    ensures forall row :: row in PullRows(r, rows, p, since) <==> row in rows && row.seqno > since && MayPull(r, p, row)
    ensures InOrder(rows) ==> InOrder(PullRows(r, rows, p, since))
  {
    if rows != [] {
      var front, last := rows[..|rows| - 1], rows[|rows| - 1];
      PullReturnsExactly(r, front, p, since);
      assert rows == front + [last];
      if InOrder(rows) {
        assert InOrder(front);
        EarlierRows(PullRows(r, front, p, since), front, last);
      }
    }
  }

  lemma EarlierRows(some: seq<EntryRow>, front: seq<EntryRow>, last: EntryRow)
    requires InOrder(front + [last]) && forall row | row in some :: row in front
    ensures forall i | 0 <= i < |some| :: some[i].seqno < last.seqno
  {
    forall i | 0 <= i < |some| ensures some[i].seqno < last.seqno {
      assert some[i] in front;
      var j :| 0 <= j < |front| && front[j] == some[i];
      assert (front + [last])[j] == front[j] && (front + [last])[|front|] == last;
    }
  }
}
