/**
 The relay's tables and handlers. Every handler's contract is the effect that module RelaySpec
 gives for its request; the runs of module RelayRuns are runs of these handlers.
 */
module RelayServer {
  import opened Wrappers
  import opened Records
  import opened RelaySpec

  class Server {
    var vault: Option<VaultRow>
    var devices: map<Pub, DeviceRow>
    var entries: seq<EntryRow>
    var lastSeq: nat
    var shareEpochs: map<Uuid, int>
    var members: map<(Uuid, Pub), Wrapped>
    var seen: map<Sig, int>

    function Tables(): Relay
      reads this
    {
      Relay(vault, devices, entries, lastSeq, shareEpochs, members, seen)
    }

    constructor ()
      ensures Tables() == EMPTY
    {
      vault, devices, entries, lastSeq := None, map[], [], 0;
      shareEpochs, members, seen := map[], map[], map[];
    }

    /** Evicts expired signatures and records this one; false if it was already there. */
    method MarkSignatureSeen(now: int, sig: Sig) returns (inserted: bool)
      modifies this`seen
      ensures (seen, inserted) == MarkSeen(old(seen), now, sig)
    {
      seen := map g | g in seen && !(seen[g] < now) :: seen[g];
      assert seen == Unexpired(old(seen), now);
      if sig in seen {
        return false;
      }
      seen := seen[sig := now + MAX_SKEW_SECS];
      return true;
    }

    method HandleEnroll(now: int, s: Signed) returns (reply: Reply)
      requires s.body.Enroll?
      modifies this`vault, this`devices
      ensures Outcome(Tables(), reply) == Serve(old(Tables()), now, s)
    {
      if !Verifies(now, s) {
        return Rejected(Unauthorized);
      }
      if s.body.pub != s.device {
        return Rejected(BadRequest);
      }
      if s.device in devices && devices[s.device].revoked {
        return Rejected(Forbidden);
      }
      var bootstrap := vault.None?;
      if bootstrap {
        vault := Some(VaultRow(s.body.recoveryPub, 0));
      }
      if s.device in devices {
        devices := devices[s.device := devices[s.device].(name := s.body.name, xpub := s.body.xpub)];
      } else {
        devices := devices[s.device := DeviceRow(s.body.xpub, s.body.name, bootstrap, false, None)];
      }
      return Enrolled(bootstrap, Head(Tables()));
    }

    method HandleApprove(now: int, s: Signed) returns (reply: Reply)
      requires s.body.Approve?
      modifies this`devices
      ensures Outcome(Tables(), reply) == Serve(old(Tables()), now, s)
    {
      if !Verifies(now, s) {
        return Rejected(Unauthorized);
      }
      if !CanSync(Tables(), s.device) {
        return Rejected(Forbidden);
      }
      var target := s.body.target;
      if target !in devices || devices[target].revoked {
        return Rejected(NotFound);
      }
      devices := devices[target := devices[target].(approved := true, wrapped := Some(s.body.wrappedKey))];
      return Done(Head(Tables()), 0);
    }

    method HandleRevoke(now: int, s: Signed) returns (reply: Reply)
      requires s.body.Revoke?
      modifies this`devices
      ensures Outcome(Tables(), reply) == Serve(old(Tables()), now, s)
    {
      if !Verifies(now, s) {
        return Rejected(Unauthorized);
      }
      if !CanSync(Tables(), s.device) {
        return Rejected(Forbidden);
      }
      var target := s.body.target;
      if target !in devices {
        return Rejected(NotFound);
      }
      devices := devices[target := devices[target].(revoked := true, approved := false, wrapped := None)];
      return Done(Head(Tables()), 0);
    }

    method HandleRotate(now: int, s: Signed) returns (reply: Reply)
      requires s.body.Rotate?
      modifies this`vault, this`devices, this`seen
      ensures Outcome(Tables(), reply) == Serve(old(Tables()), now, s)
    {
      if !Verifies(now, s) {
        return Rejected(Unauthorized);
      }
      if !CanSync(Tables(), s.device) {
        return Rejected(Forbidden);
      }
      var inserted := MarkSignatureSeen(now, s.sig);
      if !inserted {
        return Rejected(Conflict);
      }
      if vault.None? || vault.value.epoch != s.body.epoch - 1 {
        return Rejected(Conflict);
      }
      vault := Some(vault.value.(epoch := s.body.epoch));
      var ws := s.body.wrapped;
      ghost var before := devices;
      for i := 0 to |ws|
        modifies this`devices
        invariant devices == WithWraps(before, ws[..i])
      {
        var w := ws[i];
        assert ws[..i + 1][..i] == ws[..i];
        if w.device in devices && !devices[w.device].revoked {
          devices := devices[w.device := devices[w.device].(wrapped := Some(w.wrapped))];
        }
      }
      assert ws[..|ws|] == ws;
      return Done(Head(Tables()), 0);
    }

    method HandleShareGrant(now: int, s: Signed) returns (reply: Reply)
      requires s.body.ShareGrant?
      modifies this`shareEpochs, this`members
      ensures Outcome(Tables(), reply) == Serve(old(Tables()), now, s)
    {
      if !Verifies(now, s) {
        return Rejected(Unauthorized);
      }
      if !CanSync(Tables(), s.device) {
        return Rejected(Forbidden);
      }
      var share, ws := s.body.share, s.body.wrapped;
      var epoch := if share in shareEpochs then Max(shareEpochs[share], s.body.epoch) else s.body.epoch;
      shareEpochs := shareEpochs[share := epoch];
      ghost var before := members;
      for i := 0 to |ws|
        modifies this`members
        invariant members == WithMembers(before, share, ws[..i])
      {
        assert ws[..i + 1][..i] == ws[..i];
        members := members[(share, ws[i].device) := ws[i].wrapped];
      }
      assert ws[..|ws|] == ws;
      return Done(Head(Tables()), 0);
    }

    method HandleShareRotate(now: int, s: Signed) returns (reply: Reply)
      requires s.body.ShareRotate?
      modifies this`shareEpochs, this`members, this`seen
      ensures Outcome(Tables(), reply) == Serve(old(Tables()), now, s)
    {
      if !Verifies(now, s) {
        return Rejected(Unauthorized);
      }
      if !CanSync(Tables(), s.device) {
        return Rejected(Forbidden);
      }
      var inserted := MarkSignatureSeen(now, s.sig);
      if !inserted {
        return Rejected(Conflict);
      }
      var share := s.body.share;
      if share in shareEpochs && shareEpochs[share] != s.body.epoch - 1 {
        return Rejected(Conflict);
      }
      shareEpochs := shareEpochs[share := s.body.epoch];
      DropMembers(share, s.body.remove);
      RewrapMembers(share, s.body.wrapped);
      return Done(Head(Tables()), 0);
    }

    method DropMembers(share: Uuid, gone: seq<Pub>)
      modifies this`members
      ensures members == WithoutMembers(old(members), share, gone)
    {
      for i := 0 to |gone|
        invariant members == WithoutMembers(old(members), share, gone[..i])
      {
        assert gone[..i + 1][..i] == gone[..i];
        members := members - {(share, gone[i])};
      }
      assert gone[..|gone|] == gone;
    }

    method RewrapMembers(share: Uuid, ws: seq<WrappedFor>)
      modifies this`members
      ensures members == Rewrapped(old(members), share, ws)
    {
      for i := 0 to |ws|
        invariant members == Rewrapped(old(members), share, ws[..i])
      {
        assert ws[..i + 1][..i] == ws[..i];
        if (share, ws[i].device) in members {
          members := members[(share, ws[i].device) := ws[i].wrapped];
        }
      }
      assert ws[..|ws|] == ws;
    }

    method HandleShares(now: int, s: Signed) returns (reply: Reply)
      requires s.body.GetShares?
      ensures reply == Serve(Tables(), now, s).reply
    {
      if !Verifies(now, s) {
        return Rejected(Unauthorized);
      }
      if !CanSync(Tables(), s.device) {
        return Rejected(Forbidden);
      }
      return Shares(MembershipsOf(Tables(), s.device));
    }

    method HandleDevices(now: int, s: Signed) returns (reply: Reply)
      requires s.body.GetDevices?
      ensures reply == Serve(Tables(), now, s).reply
    {
      if !Verifies(now, s) {
        return Rejected(Unauthorized);
      }
      if !CanSync(Tables(), s.device) {
        return Rejected(Forbidden);
      }
      return Devices(devices);
    }

    method HandleWrapped(now: int, s: Signed) returns (reply: Reply)
      requires s.body.GetWrapped?
      ensures reply == Serve(Tables(), now, s).reply
    {
      if !Verifies(now, s) {
        return Rejected(Unauthorized);
      }
      if s.device !in devices {
        return Rejected(NotFound);
      }
      var row := devices[s.device];
      if row.revoked {
        return Rejected(Forbidden);
      }
      var epoch := if vault.Some? then vault.value.epoch else 0;
      return Wrapping(row.approved, row.wrapped, epoch);
    }

    method HandleRecover(q: Recover) returns (reply: Reply)
      modifies this`devices
      ensures Outcome(Tables(), reply) == DoRecover(old(Tables()), q)
    {
      if q.signedBy != q.recoveryPub || q.signedPub != q.pub {
        return Rejected(Unauthorized);
      }
      if vault.None? || vault.value.recoveryPub != q.recoveryPub {
        return Rejected(NotFound);
      }
      if q.pub in devices {
        devices := devices[q.pub := devices[q.pub].(approved := true, revoked := false, xpub := q.xpub)];
      } else {
        devices := devices[q.pub := DeviceRow(q.xpub, q.name, true, false, None)];
      }
      return Done(Head(Tables()), 0);
    }

    /** Looks an entry id up, as the table's unique index does. */
    method IsStored(id: Uuid) returns (found: bool)
      ensures found <==> Stored(Tables(), id)
    {
      for i := 0 to |entries|
        invariant forall j | 0 <= j < i :: entries[j].frame.id != id
      {
        if entries[i].frame.id == id {
          return true;
        }
      }
      return false;
    }

    method HandlePush(now: int, s: Signed) returns (reply: Reply)
      requires s.body.Push?
      modifies this`entries, this`lastSeq
      ensures Outcome(Tables(), reply) == Serve(old(Tables()), now, s)
    {
      if !Verifies(now, s) {
        return Rejected(Unauthorized);
      }
      if !CanSync(Tables(), s.device) {
        return Rejected(Forbidden);
      }
      var es := s.body.entries;
      var stored := 0;
      for i := 0 to |es|
        invariant Tables() == StoreAll(old(Tables()), es[..i])
        invariant |entries| == |old(entries)| + stored
      {
        assert es[..i + 1][..i] == es[..i];
        var found := IsStored(es[i].frame.id);
        if !found {
          entries := entries + [EntryRow(lastSeq + 1, es[i].frame, es[i].share)];
          lastSeq := lastSeq + 1;
          stored := stored + 1;
        }
      }
      assert es[..|es|] == es;
      return Done(Head(Tables()), stored);
    }

    method HandlePull(now: int, s: Signed) returns (reply: Reply)
      requires s.body.Pull?
      ensures reply == Serve(Tables(), now, s).reply
    {
      if !Verifies(now, s) {
        return Rejected(Unauthorized);
      }
      if !CanSync(Tables(), s.device) {
        return Rejected(Forbidden);
      }
      var rows: seq<EntryRow> := [];
      for i := 0 to |entries|
        invariant rows == PullRows(Tables(), entries[..i], s.device, s.body.since)
      {
        assert entries[..i + 1][..i] == entries[..i];
        if entries[i].seqno > s.body.since && MayPull(Tables(), s.device, entries[i]) {
          rows := rows + [entries[i]];
        }
      }
      assert entries[..|entries|] == entries;
      return Pulled(rows, MaxNat(Head(Tables()), s.body.since));
    }
  }
}
