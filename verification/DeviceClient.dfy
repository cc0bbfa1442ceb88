/**
 The multi-step operations of one device against the relay: rotation with revocation, and
 creating, extending and shrinking a share. Devices are named by their relay identity (short
 codes are not modelled), and fresh keys and ids are parameters.
 */
module DeviceClient {
  import opened Wrappers
  import opened Records
  import opened Merging
  import opened PayloadCheck
  import opened Keyrings
  import opened VaultSpec
  import opened RelaySpec
  import opened Protocol
  import opened Rotation
  import opened RelayRuns
  import opened VaultErrors
  import Vault
  import RelayServer
  import Sync

  datatype EnrollError =
    | NoSuchDevice
    | Relayed(status: Status)
    | Stored(why: VaultError)

  // ---- requests ----------------------------------------------------------------------------

  method ListDevices(relay: RelayServer.Server, d: Pub, now: int) returns (r: Result<map<Pub, DeviceRow>, EnrollError>)
    ensures r == if CanSync(relay.Tables(), d) then Ok(relay.devices) else Err(Relayed(Forbidden))
  {
    var reply := relay.HandleDevices(now, Sync.Ask(d, now, GetDevices));
    if reply.Rejected? {
      return Err(Relayed(reply.status));
    }
    return Ok(reply.table);
  }

  /** Looks a device up in the relay's list. */
  method FindDevice(relay: RelayServer.Server, d: Pub, now: int, target: Pub)
    returns (r: Result<DeviceRow, EnrollError>)
    ensures r.Ok? <==> CanSync(relay.Tables(), d) && target in relay.devices
    ensures r.Ok? ==> r.value == relay.devices[target]
  {
    var devices := ListDevices(relay, d, now);
    if devices.Err? {
      return Err(devices.error);
    }
    return if target in devices.value then Ok(devices.value[target]) else Err(NoSuchDevice);
  }

  method AskRevoke(relay: RelayServer.Server, d: Pub, now: int, target: Pub) returns (r: Result<(), EnrollError>)
    modifies relay
    ensures relay.Tables() == Answer(old(relay.Tables()), d, now, Revoke(target))
    ensures relay.Tables() == old(relay.Tables()).(devices := relay.devices)
    ensures r.Ok? <==> CanSync(old(relay.Tables()), d) && target in old(relay.devices)
    ensures r.Ok? <==> Accepts(old(relay.Tables()), d, now, Revoke(target))
    ensures r.Ok? ==>
      var row := old(relay.devices[target]).(revoked := true, approved := false, wrapped := None);
      relay.devices == old(relay.devices)[target := row]
    ensures r.Err? ==> relay.devices == old(relay.devices)
  {
    var reply := relay.HandleRevoke(now, Sync.Ask(d, now, Revoke(target)));
    return if reply.Rejected? then Err(Relayed(reply.status)) else Ok(());
  }

  method AskRotate(relay: RelayServer.Server, d: Pub, now: int, epoch: nat, ws: seq<WrappedFor>)
    returns (r: Result<(), EnrollError>)
    modifies relay
    ensures relay.Tables() == Answer(old(relay.Tables()), d, now, Rotate(epoch, ws))
    ensures relay.Tables() == old(relay.Tables()).(vault := relay.vault, devices := relay.devices, seen := relay.seen)
    ensures r.Ok? <==> Accepts(old(relay.Tables()), d, now, Rotate(epoch, ws))
    ensures r.Ok? <==> && CanSync(old(relay.Tables()), d)
                       && old(relay.vault).Some? && epoch == old(relay.vault).value.epoch + 1
                       && Unseen(old(relay.Tables()), now, Sig(d, now, Rotate(epoch, ws)))
    ensures r.Ok? ==> && old(relay.vault).Some? && relay.vault.Some?
                      && relay.vault.value.epoch == epoch == old(relay.vault).value.epoch + 1
                      && relay.devices == WithWraps(old(relay.devices), ws)
    ensures r.Err? ==> relay.vault == old(relay.vault) && relay.devices == old(relay.devices)
  {
    RotateAcceptedIff(relay.Tables(), now, Sync.Ask(d, now, Rotate(epoch, ws)));
    var reply := relay.HandleRotate(now, Sync.Ask(d, now, Rotate(epoch, ws)));
    return if reply.Rejected? then Err(Relayed(reply.status)) else Ok(());
  }

  method AskGrant(relay: RelayServer.Server, d: Pub, now: int, share: Uuid, epoch: nat, ws: seq<WrappedFor>)
    returns (r: Result<(), EnrollError>)
    modifies relay
    ensures relay.Tables() == Answer(old(relay.Tables()), d, now, ShareGrant(share, epoch, ws))
    ensures relay.Tables() == old(relay.Tables()).(shareEpochs := relay.shareEpochs, members := relay.members)
    ensures r.Ok? <==> CanSync(old(relay.Tables()), d)
    ensures r.Ok? ==> relay.members == WithMembers(old(relay.members), share, ws)
    ensures r.Ok? ==>
      var before := old(relay.shareEpochs);
      relay.shareEpochs ==
        before[share := if share in before && before[share] > epoch then before[share] else epoch]
    ensures r.Err? ==> relay.members == old(relay.members) && relay.shareEpochs == old(relay.shareEpochs)
  {
    var reply := relay.HandleShareGrant(now, Sync.Ask(d, now, ShareGrant(share, epoch, ws)));
    return if reply.Rejected? then Err(Relayed(reply.status)) else Ok(());
  }

  method AskShareRotate(relay: RelayServer.Server, d: Pub, now: int, share: Uuid, epoch: nat, ws: seq<WrappedFor>,
                        gone: Pub)
    returns (r: Result<(), EnrollError>)
    modifies relay
    ensures relay.Tables() == Answer(old(relay.Tables()), d, now, ShareRotate(share, epoch, ws, [gone]))
    ensures relay.Tables() ==
            old(relay.Tables()).(shareEpochs := relay.shareEpochs, members := relay.members, seen := relay.seen)
    ensures r.Ok? <==> Accepts(old(relay.Tables()), d, now, ShareRotate(share, epoch, ws, [gone]))
    ensures r.Ok? <==> && CanSync(old(relay.Tables()), d)
                       && (share in old(relay.shareEpochs) ==> epoch == old(relay.shareEpochs)[share] + 1)
                       && Unseen(old(relay.Tables()), now, Sig(d, now, ShareRotate(share, epoch, ws, [gone])))
    ensures r.Ok? ==> && relay.members == Rewrapped(WithoutMembers(old(relay.members), share, [gone]), share, ws)
                      && relay.shareEpochs == old(relay.shareEpochs)[share := epoch]
    ensures r.Err? ==> relay.members == old(relay.members) && relay.shareEpochs == old(relay.shareEpochs)
  {
    ShareRotateAcceptedIff(relay.Tables(), now, Sync.Ask(d, now, ShareRotate(share, epoch, ws, [gone])));
    var reply := relay.HandleShareRotate(now, Sync.Ask(d, now, ShareRotate(share, epoch, ws, [gone])));
    return if reply.Rejected? then Err(Relayed(reply.status)) else Ok(());
  }

  // ---- wrapping ----------------------------------------------------------------------------

  predicate Wraps(ws: seq<WrappedFor>, p: Pub) {
    exists w :: w in ws && w.device == p
  }

  /** The list as a whole, wrapped for exactly these devices. */
  ghost predicate WrapsFor(ws: seq<WrappedFor>, ps: set<Pub>, keys: seq<Key>) {
    && (forall w | w in ws :: w.device in ps && w.wrapped == Wrapped(w.device, keys))
    && (forall p | p in ps :: Wraps(ws, p))
  }

  lemma OneMoreWrap(ws: seq<WrappedFor>, ps: set<Pub>, keys: seq<Key>, p: Pub)
    requires WrapsFor(ws, ps, keys)
    ensures WrapsFor(ws + [WrappedFor(p, Wrapped(p, keys))], ps + {p}, keys)
  {
    var ws' := ws + [WrappedFor(p, Wrapped(p, keys))];
    forall q | q in ps + {p} ensures Wraps(ws', q) {
      if q in ps {
        assert Wraps(ws, q);
        var w :| w in ws && w.device == q;
        assert w in ws';
      } else {
        assert WrappedFor(p, Wrapped(p, keys)) in ws';
      }
    }
  }

  /** Who is re-wrapped for: the devices that are not revoked, approved ones only for a share. */
  predicate Remains(row: DeviceRow, approvedOnly: bool) {
    !row.revoked && (approvedOnly ==> row.approved)
  }

  ghost function Remaining(devices: map<Pub, DeviceRow>, gone: Pub, approvedOnly: bool): set<Pub> {
    set p | p in devices && p != gone && Remains(devices[p], approvedOnly)
  }

  /** Wraps the list for every listed device but the one that goes. */
  method WrapForRemaining(devices: map<Pub, DeviceRow>, gone: Pub, approvedOnly: bool, keys: seq<Key>)
    returns (ws: seq<WrappedFor>)
    ensures WrapsFor(ws, Remaining(devices, gone, approvedOnly), keys)
  {
    ws := [];
    var todo := devices.Keys;
    ghost var done: set<Pub> := {};
    while todo != {}
      invariant todo <= devices.Keys && done == Remaining(devices, gone, approvedOnly) - todo
      invariant WrapsFor(ws, done, keys)
      decreases todo
    {
      var p :| p in todo;
      todo := todo - {p};
      if p != gone && Remains(devices[p], approvedOnly) {
        OneMoreWrap(ws, done, keys, p);
        ws := ws + [WrappedFor(p, Wrapped(p, keys))];
        done := done + {p};
      }
    }
    assert done == Remaining(devices, gone, approvedOnly);
  }

  ghost function Named(named: seq<Pub>): set<Pub> {
    set p | p in named
  }

  /** Wraps the list for the named devices, all of which the relay must list. */
  method WrapForNamed(relay: RelayServer.Server, d: Pub, now: int, named: seq<Pub>, keys: seq<Key>)
    returns (r: Result<seq<WrappedFor>, EnrollError>)
    ensures r.Ok? <==> forall p | p in named :: CanSync(relay.Tables(), d) && p in relay.devices
    ensures r.Ok? ==> WrapsFor(r.value, Named(named), keys)
  {
    var ws: seq<WrappedFor> := [];
    for i := 0 to |named|
      invariant forall p | p in named[..i] :: CanSync(relay.Tables(), d) && p in relay.devices
      invariant WrapsFor(ws, Named(named[..i]), keys)
    {
      var found := FindDevice(relay, d, now, named[i]);
      if found.Err? {
        assert named[i] in named;
        return Err(found.error);
      }
      OneMoreWrap(ws, Named(named[..i]), keys, named[i]);
      ws := ws + [WrappedFor(named[i], Wrapped(named[i], keys))];
      assert Named(named[..i + 1]) == Named(named[..i]) + {named[i]};
    }
    assert named[..|named|] == named;
    return Ok(ws);
  }

  // ---- what the wrapped lists do to the tables ------------------------------------------------

  lemma RowsHoldList(devices: map<Pub, DeviceRow>, ws: seq<WrappedFor>, ps: set<Pub>, keys: seq<Key>)
    requires WrapsFor(ws, ps, keys)
    ensures WithWraps(devices, ws).Keys == devices.Keys
    ensures forall p | p in ps && p in devices && !devices[p].revoked ::
              WithWraps(devices, ws)[p] == devices[p].(wrapped := Some(Wrapped(p, keys)))
    ensures forall p | p in devices && p !in ps :: WithWraps(devices, ws)[p] == devices[p]
    ensures forall p | p in devices && devices[p].revoked :: WithWraps(devices, ws)[p] == devices[p]
  {
    WrapsReachLiveRows(devices, ws);
    forall p | p in ps && p in devices && !devices[p].revoked
      ensures WithWraps(devices, ws)[p].wrapped == Some(Wrapped(p, keys))
    {
      assert Wraps(ws, p);
      var w :| w in ws && w.device == p;
      var k :| 0 <= k < |ws| && ws[k] == w;
      assert ws[k].device == p;
      var j :| 0 <= j < |ws| && ws[j].device == p && WithWraps(devices, ws)[p].wrapped == Some(ws[j].wrapped);
      assert ws[j] in ws;
    }
    forall p | p in devices && p !in ps ensures WithWraps(devices, ws)[p].wrapped == devices[p].wrapped {
      forall j | 0 <= j < |ws| ensures ws[j].device != p {
        assert ws[j] in ws;
      }
    }
  }

  lemma {:induction false} MembersHoldList(members: map<(Uuid, Pub), Wrapped>, share: Uuid, ws: seq<WrappedFor>,
                                           keys: seq<Key>)
    requires forall w | w in ws :: w.wrapped == Wrapped(w.device, keys)
    ensures forall k :: k in WithMembers(members, share, ws) <==> k in members || (k.0 == share && Wraps(ws, k.1))
    ensures forall k | k in WithMembers(members, share, ws) ::
              WithMembers(members, share, ws)[k] ==
                if k.0 == share && Wraps(ws, k.1) then Wrapped(k.1, keys) else members[k]
  {
    if ws != [] {
      var front, last := ws[..|ws| - 1], ws[|ws| - 1];
      MembersHoldList(members, share, front, keys);
      assert ws == front + [last];
      assert forall p :: Wraps(ws, p) <==> Wraps(front, p) || last.device == p;
    }
  }

  lemma {:induction false} RewrappedHoldList(members: map<(Uuid, Pub), Wrapped>, share: Uuid, ws: seq<WrappedFor>,
                                             keys: seq<Key>)
    requires forall w | w in ws :: w.wrapped == Wrapped(w.device, keys)
    ensures Rewrapped(members, share, ws).Keys == members.Keys
    ensures forall k | k in members ::
              Rewrapped(members, share, ws)[k] ==
                if k.0 == share && Wraps(ws, k.1) then Wrapped(k.1, keys) else members[k]
  {
    if ws != [] {
      var front, last := ws[..|ws| - 1], ws[|ws| - 1];
      RewrappedHoldList(members, share, front, keys);
      assert ws == front + [last];
      assert forall p :: Wraps(ws, p) <==> Wraps(front, p) || last.device == p;
    }
  }

  // ---- rotation ------------------------------------------------------------------------------

  /** Every device row that is not revoked holds the list, wrapped for it. */
  ghost predicate AllHoldWrap(r: Relay, list: seq<Key>) {
    forall p | p in r.devices && !r.devices[p].revoked :: HasWrap(r, p, list)
  }

  predicate IsOut(r: Relay, p: Pub) {
    p in r.devices && r.devices[p].revoked && !r.devices[p].approved && r.devices[p].wrapped.None?
  }

  /** Wraps the list for every remaining device and sends the epoch bump with it. */
  method SendRotation(relay: RelayServer.Server, d: Pub, now: int, target: Pub, keys: seq<Key>, ghost ring: Ring)
    returns (r: Result<(), EnrollError>, ghost body: Body)
    requires keys != [] && keys == ListOf(ring, NIL) && IsOut(relay.Tables(), target)
    modifies relay
    ensures relay.entries == old(relay.entries) && relay.members == old(relay.members)
    ensures IsOut(relay.Tables(), target)
    ensures r.Ok? ==> && old(relay.vault).Some? && relay.vault.Some?
                      && relay.vault.value.epoch == old(relay.vault).value.epoch + 1 == |keys| - 1
    ensures CanSync(old(relay.Tables()), d) ==>
              body.Rotate? && WrapsWholeList(body, keys)
    ensures r.Ok? <==> && CanSync(old(relay.Tables()), d)
                       && old(relay.vault).Some? && |keys| - 1 == old(relay.vault).value.epoch + 1
                       && Unseen(old(relay.Tables()), now, Sig(d, now, body))
    ensures r.Ok? ==> AllHoldWrap(relay.Tables(), keys)
    ensures r.Ok? ==> && body.Rotate? && WrapsWholeList(body, keys) && ClientBuilt(ring, body)
                      && Accepts(old(relay.Tables()), d, now, body)
                      && relay.Tables() == Answer(old(relay.Tables()), d, now, body)
    ensures r.Err? ==> relay.vault == old(relay.vault)
  {
    body := GetDevices;
    var devices := ListDevices(relay, d, now);
    if devices.Err? {
      return Err(devices.error), body;
    }
    var ws := WrapForRemaining(devices.value, target, false, keys);
    body := Rotate(|keys| - 1, ws);
    RowsHoldList(relay.devices, ws, Remaining(relay.devices, target, false), keys);
    r := AskRotate(relay, d, now, |keys| - 1, ws);
  }

  /**
   Revokes a device and rotates the default share to `key`. When it succeeds the relay's epoch has
   grown by exactly one, the revoked device is out, and every device that is not revoked has the
   whole new list waiting for it. When it fails after the key was minted, the key stays, while the
   relay's epoch does not move. No other request comes in between, so a device just found can be
   revoked. It succeeds exactly when the device may sync, the target is another device that the relay
   lists, the default list is the one of the relay's epoch, and the request was not sent before.
   */
  method RevokeAndRotate(v: Vault.Vault, relay: RelayServer.Server, d: Pub, now: int, target: Pub, key: Key)
    returns (r: Result<string, EnrollError>, ghost body: Body)
    requires v.Valid() && NIL in v.ring
    modifies v, v.dir, relay
    ensures v.Valid()
    ensures r.Ok? <==> && CanSync(old(relay.Tables()), d) && target in old(relay.devices) && target != d
                       && old(relay.vault).Some? && |ListOf(old(v.ring), NIL)| == old(relay.vault).value.epoch + 1
                       && Unseen(old(relay.Tables()), now, Sig(d, now, body))
    ensures r.Ok? ==> v.Now() == KeyPushed(old(v.Now()), NIL, key)
    ensures r.Ok? ==> && old(relay.vault).Some? && relay.vault.Some?
                      && relay.vault.value.epoch == old(relay.vault).value.epoch + 1 == |ListOf(v.ring, NIL)| - 1
    ensures r.Ok? ==> IsOut(relay.Tables(), target) && AllHoldWrap(relay.Tables(), ListOf(v.ring, NIL))
    ensures r.Ok? ==> relay.entries == old(relay.entries) && relay.members == old(relay.members)
    ensures r.Ok? ==> && body.Rotate? && WrapsWholeList(body, ListOf(v.ring, NIL)) && ClientBuilt(v.ring, body)
                      && var revoked := Answer(old(relay.Tables()), d, now, Revoke(target));
                         && Accepts(old(relay.Tables()), d, now, Revoke(target)) && Accepts(revoked, d, now, body)
                         && relay.Tables() == Answer(revoked, d, now, body)
    ensures r.Err? ==> relay.vault == old(relay.vault)
                       && (v.Now() == old(v.Now()) ||
                           (v.Now() == KeyPushed(old(v.Now()), NIL, key) && IsOut(relay.Tables(), target)))
  {
    var found := FindDevice(relay, d, now, target);
    if found.Err? {
      return Err(found.error), Revoke(target);
    }
    var revoked := AskRevoke(relay, d, now, target);
    var rotated := v.RotateShare(NIL, key);
    var keys := v.ShareKeyList(NIL);
    var sent;
    sent, body := SendRotation(relay, d, now, target, keys, v.ring);
    r := if sent.Ok? then Ok(found.value.name) else Err(sent.error);
  }

  // ---- shares --------------------------------------------------------------------------------

  /** The devices have membership rows of the share with the list; no other row changed. */
  ghost predicate Granted(before: map<(Uuid, Pub), Wrapped>, after: map<(Uuid, Pub), Wrapped>, share: Uuid,
                          ps: set<Pub>, list: seq<Key>) {
    && (forall k :: k in after <==> k in before || (k.0 == share && k.1 in ps))
    && (forall k | k in after :: after[k] == if k.0 == share && k.1 in ps then Wrapped(k.1, list) else before[k])
  }

  lemma GrantEffect(members: map<(Uuid, Pub), Wrapped>, share: Uuid, ws: seq<WrappedFor>, ps: set<Pub>, keys: seq<Key>)
    requires WrapsFor(ws, ps, keys)
    ensures Granted(members, WithMembers(members, share, ws), share, ps, keys)
  {
    MembersHoldList(members, share, ws, keys);
    assert forall p :: Wraps(ws, p) <==> p in ps;
  }

  /** Adds members to a share this device holds. */
  method ShareAdd(v: Vault.Vault, relay: RelayServer.Server, d: Pub, now: int, share: Uuid, named: seq<Pub>)
    returns (r: Result<(), EnrollError>, ghost body: Body)
    requires v.Valid()
    modifies relay
    ensures r.Ok? <==> share in v.ring && CanSync(old(relay.Tables()), d) && forall p | p in named ::
              p in old(relay.devices)
    ensures r.Ok? ==> Granted(old(relay.members), relay.members, share, Named(named), v.ring[share])
    ensures r.Ok? ==>
      var before, epoch := old(relay.shareEpochs), |v.ring[share]| - 1;
      relay.shareEpochs ==
        before[share := if share in before && before[share] > epoch then before[share] else epoch]
    ensures r.Ok? && share != NIL ==> ClientBuilt(v.ring, body)
    ensures r.Ok? && share != NIL ==> relay.Tables() == Answer(old(relay.Tables()), d, now, body)
    ensures r.Err? ==> relay.Tables() == old(relay.Tables())
  {
    body := GetShares;
    var held := v.HasShare(share);
    if !held {
      return Err(Stored(NotAMember)), body;
    }
    var keys := v.ShareKeyList(share);
    var ws := WrapForNamed(relay, d, now, named, keys);
    if ws.Err? {
      return Err(ws.error), body;
    }
    var epoch := v.ShareEpoch(share);
    body := ShareGrant(share, epoch, ws.value);
    GrantEffect(relay.members, share, ws.value, Named(named), keys);
    r := AskGrant(relay, d, now, share, epoch, ws.value);
  }

  /** One record of a share's name was logged in the default share; the keyring is as it was. */
  ghost predicate NameLogged(before: View, after: View) {
    && after.me.ring == before.me.ring && after.disk.ring == before.disk.ring
    && |after.disk.log| == |before.disk.log| + 1
    && before.disk.log <= after.disk.log
    && var f := after.disk.log[|before.disk.log|];
       Opens(after.me.ring, f) && f.blob.rec.shareId == NIL && f.blob.rec.kind == ShareName
  }

  lemma NameIsReadable(w: View, id: Uuid, values: map<string, Json>, stamp: nat, entry: Uuid)
    requires NIL in w.me.ring && CanAppend(Drafted(w, AddIntent(id, ShareName, values, NIL), stamp).me)
    ensures NameLogged(w, Appended(Drafted(w, AddIntent(id, ShareName, values, NIL), stamp), entry))
  {
    var drafted := Drafted(w, AddIntent(id, ShareName, values, NIL), stamp);
    OwnFrameOpens(drafted.me, entry);
  }

  /** The payload is acceptable for a share's name, and no share is named so. */
  ghost predicate FreeName(state: State, name: string, payload: seq<Member>) {
    Acceptable(ShareName, JObject(payload)) && forall id :: !Matches(state, ShareName, "name", name, id)
  }

  method RecordName(v: Vault.Vault, name: string, payload: seq<Member>, id: Uuid, entry: Uuid, stamp: nat)
    returns (r: Result<(), EnrollError>)
    requires v.Valid() && NIL in v.ring && UniqueNames(payload)
    modifies v, v.dir
    ensures v.Valid()
    ensures r.Ok? <==> FreeName(old(v.state), name, payload)
    ensures r.Ok? ==> NameLogged(old(v.Now()), v.Now())
    ensures r.Err? ==> v.Now() == old(v.Now())
  {
    var added := v.AddIn(ShareName, "name", name, payload, NIL, id, entry, stamp);
    if added.Err? {
      return Err(Stored(added.error));
    }
    NameIsReadable(old(v.Now()), id, ValuesOf(payload), stamp, entry);
    return Ok(());
  }

  lemma FirstKey(w: View, share: Uuid, key: Key)
    requires share !in w.me.ring
    ensures KeyPushed(w, share, key) == WithRing(w, w.me.ring[share := [key]])
  {
    assert [] + [key] == [key];
  }

  /** The vault went on to hold the share with one key and to log the record of its name. */
  ghost predicate ShareRecorded(before: View, after: View, share: Uuid, key: Key) {
    NameLogged(WithRing(before, before.me.ring[share := [key]]), after)
  }

  /** Mints a share and records its name in the default share. */
  method MintShare(v: Vault.Vault, name: string, payload: seq<Member>, share: Uuid, key: Key, id: Uuid, entry: Uuid,
                   stamp: nat, parses: bool)
    returns (r: Result<(), EnrollError>)
    requires v.Valid() && NIL in v.ring && share !in v.ring && UniqueNames(payload)
    modifies v, v.dir
    ensures v.Valid()
    ensures r.Ok? <==> FreeName(old(v.state), name, payload)
    ensures r.Ok? ==> ShareRecorded(old(v.Now()), v.Now(), share, key)
    ensures r.Err? ==>
      if parses && exists k :: Matches(old(v.state), ShareName, "name", name, k) then v.Now() == old(v.Now())
      else v.Now() == WithRing(old(v.Now()), old(v.ring)[share := [key]])
  {
    var taken := v.Find(ShareName, "name", name);
    if taken.Some? && parses {
      return Err(Stored(Duplicate));
    }
    FirstKey(v.Now(), share, key);
    v.PushShareKey(share, key);
    r := RecordName(v, name, payload, id, entry, stamp);
  }

  /**
   Creates a share, records its name in the default share, and grants it to the named devices and
   to this one. A failure after the key was minted leaves the share held here and not granted; once
   the relay has listed this device, the grant that follows is accepted.
   `parses` tells whether a record of that name has a well-formed share id.
   */
  method CreateShare(v: Vault.Vault, relay: RelayServer.Server, d: Pub, now: int, name: string, payload: seq<Member>,
                     named: seq<Pub>, share: Uuid, key: Key, id: Uuid, entry: Uuid, stamp: nat, parses: bool)
    returns (r: Result<Uuid, EnrollError>)
    requires v.Valid() && NIL in v.ring && share !in v.ring && UniqueNames(payload)
    modifies v, v.dir, relay
    ensures v.Valid()
    ensures r.Ok? <==> && FreeName(old(v.state), name, payload) && CanSync(old(relay.Tables()), d)
                       && forall p | p in named :: p in old(relay.devices)
    ensures r.Ok? ==> r.value == share && ShareRecorded(old(v.Now()), v.Now(), share, key)
    ensures r.Ok? ==> Granted(old(relay.members), relay.members, share, Named(named) + {d}, [key])
    ensures r.Ok? ==> share in relay.shareEpochs && (share !in old(relay.shareEpochs) ==> relay.shareEpochs[share] == 0)
    ensures relay.entries == old(relay.entries) && relay.devices == old(relay.devices)
    ensures r.Err? ==> && relay.Tables() == old(relay.Tables())
                       && (v.ring == old(v.ring) || v.ring == old(v.ring)[share := [key]])
  {
    var minted := MintShare(v, name, payload, share, key, id, entry, stamp, parses);
    if minted.Err? {
      return Err(minted.error);
    }
    var ws := WrapForNamed(relay, d, now, named + [d], [key]);
    if ws.Err? {
      return Err(ws.error);
    }
    assert Named(named + [d]) == Named(named) + {d};
    GrantEffect(relay.members, share, ws.value, Named(named + [d]), [key]);
    var sent := AskGrant(relay, d, now, share, 0, ws.value);
    return Ok(share);
  }

  /** One member is gone; every other member that is an approved device has the list, the rest is as it was. */
  ghost predicate Removed(before: Relay, after: Relay, share: Uuid, gone: Pub, list: seq<Key>) {
    && after.members.Keys == before.members.Keys - {(share, gone)}
    && (forall k | k in after.members ::
          after.members[k] ==
            if k.0 == share && k.1 in before.devices && before.devices[k.1].approved && !before.devices[k.1].revoked
            then Wrapped(k.1, list) else before.members[k])
  }

  lemma RemovalEffect(r: Relay, share: Uuid, gone: Pub, ws: seq<WrappedFor>, keys: seq<Key>, after: Relay)
    requires WrapsFor(ws, Remaining(r.devices, gone, true), keys)
    requires after.members == Rewrapped(WithoutMembers(r.members, share, [gone]), share, ws)
    ensures Removed(r, after, share, gone, keys)
  {
    WithoutMembersKeys(r.members, share, [gone]);
    RewrappedHoldList(WithoutMembers(r.members, share, [gone]), share, ws, keys);
    assert forall p :: Wraps(ws, p) <==> p in Remaining(r.devices, gone, true);
  }

  /** Wraps the list for every approved device that remains, and sends it with the removal. */
  method SendRemoval(relay: RelayServer.Server, d: Pub, now: int, share: Uuid, target: Pub, keys: seq<Key>,
                     ghost ring: Ring)
    returns (r: Result<(), EnrollError>, ghost body: Body)
    requires CanSync(relay.Tables(), d) && keys != [] && share in ring && keys == ring[share]
    modifies relay
    ensures body.ShareRotate? && body.share == share && target in body.remove && WrapsWholeList(body, keys)
    ensures share != NIL ==> ClientBuilt(ring, body)
    ensures r.Ok? <==> && (share in old(relay.shareEpochs) ==> |keys| - 1 == old(relay.shareEpochs)[share] + 1)
                       && Unseen(old(relay.Tables()), now, Sig(d, now, body))
    ensures r.Ok? ==> Removed(old(relay.Tables()), relay.Tables(), share, target, keys)
    ensures r.Ok? ==> relay.shareEpochs == old(relay.shareEpochs)[share := |keys| - 1]
    ensures r.Ok? <==> Accepts(old(relay.Tables()), d, now, body)
    ensures relay.Tables() == Answer(old(relay.Tables()), d, now, body)
    ensures r.Err? ==> relay.members == old(relay.members) && relay.shareEpochs == old(relay.shareEpochs)
  {
    var devices := ListDevices(relay, d, now);
    var ws := WrapForRemaining(devices.value, target, true, keys);
    body := ShareRotate(share, |keys| - 1, ws, [target]);
    ghost var before := relay.Tables();
    r := AskShareRotate(relay, d, now, share, |keys| - 1, ws, target);
    if r.Ok? {
      RemovalEffect(before, share, target, ws, keys, relay.Tables());
    }
  }

  /**
   Removes a member from a share and rotates the share to `key`. When it succeeds the share's epoch
   is the new list's, the removed device has no row, and every other member that is an approved
   device has the whole new list waiting. It succeeds exactly when the share is held, the device may
   sync, the relay lists the target, the list held is the one of the relay's epoch, if there is one,
   and the request was not sent before. When it fails after the key was minted, the key stays.
   */
  method ShareRemove(v: Vault.Vault, relay: RelayServer.Server, d: Pub, now: int, share: Uuid, target: Pub, key: Key)
    returns (r: Result<string, EnrollError>, ghost body: Body)
    requires v.Valid()
    modifies v, v.dir, relay
    ensures v.Valid()
    ensures r.Ok? <==> && share in old(v.ring) && CanSync(old(relay.Tables()), d) && target in old(relay.devices)
                       && (share in old(relay.shareEpochs) ==>
                             |old(v.ring)[share]| == old(relay.shareEpochs)[share] + 1)
                       && Unseen(old(relay.Tables()), now, Sig(d, now, body))
    ensures r.Ok? ==> v.Now() == KeyPushed(old(v.Now()), share, key)
    ensures r.Ok? ==> Removed(old(relay.Tables()), relay.Tables(), share, target, v.ring[share])
    ensures r.Ok? ==> relay.shareEpochs == old(relay.shareEpochs)[share := |v.ring[share]| - 1]
    ensures r.Ok? ==> && body.ShareRotate? && body.share == share && target in body.remove
                      && WrapsWholeList(body, v.ring[share])
    ensures r.Ok? ==> && Accepts(old(relay.Tables()), d, now, body)
                      && relay.Tables() == Answer(old(relay.Tables()), d, now, body)
    ensures r.Ok? && share != NIL ==> ClientBuilt(v.ring, body)
    ensures r.Err? ==> && relay.members == old(relay.members) && relay.shareEpochs == old(relay.shareEpochs)
                       && (v.Now() == old(v.Now()) || v.Now() == KeyPushed(old(v.Now()), share, key))
  {
    body := GetShares;
    var held := v.HasShare(share);
    if !held {
      return Err(Stored(NotAMember)), body;
    }
    var found := FindDevice(relay, d, now, target);
    if found.Err? {
      return Err(found.error), body;
    }
    var rotated := v.RotateShare(share, key);
    var keys := v.ShareKeyList(share);
    var sent;
    sent, body := SendRemoval(relay, d, now, share, target, keys, v.ring);
    r := if sent.Ok? then Ok(found.value.name) else Err(sent.error);
  }
}
