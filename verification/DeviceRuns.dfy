/**
 The multi-step operations of module DeviceClient are runs of module Protocol. What
 `RevokeAndRotate` and `ShareRemove` ensure of their requests is what the lemmas here require, so
 the theorems of module Rotation hold of what the client code does.
 */
module DeviceRuns {
  import opened Records
  import opened Keyrings
  import opened VaultSpec
  import opened VaultRuns
  import opened RelaySpec
  import RelayRuns
  import opened Protocol
  import opened ProtocolSteps
  import opened Rotation
  import Runs = ProtocolRuns

  /** H6: no round is under way, and the handle, which is between writes, holds the keyring that is on disk. */
  ghost predicate MayRotate(s: Sys, d: Uuid, h: nat, share: Uuid) {
    d in s.devs && WritesKeys(s.devs[d], h) && share in s.devs[d].dir.disk.ring
  }

  /** The share's list with the next key of its sequence. */
  function NextList(s: Sys, d: Uuid, share: Uuid): seq<Key>
    requires d in s.devs
  {
    var list := ListOf(s.devs[d].dir.disk.ring, share);
    list + [Key(share, |list|)]
  }

  /** Minting the next key is one action of the device; it does to the vault what the client code does. */
  lemma MintIsAction(s: Sys, d: Uuid, h: nat, share: Uuid)
    requires MayRotate(s, d, h, share)
    requires share == NIL || (share in s.minted && s.minted[share] == |ListOf(s.devs[d].dir.disk.ring, share)|)
    ensures Enabled(s, Act(d, RotateKey(h, share)))
    ensures var dir, dir' := s.devs[d].dir, Next(s, Act(d, RotateKey(h, share))).devs[d].dir;
            && h in dir'.handles
            && ViewOf(dir', h) == KeyPushed(ViewOf(dir, h), share, Key(share, |ListOf(dir.disk.ring, share)|))
            && ListOf(dir'.disk.ring, share) == NextList(s, d, share)
            && dir'.disk.ring == dir.disk.ring[share := NextList(s, d, share)]
    ensures var s' := Next(s, Act(d, RotateKey(h, share)));
            && s'.relay == s.relay
            && (share != NIL ==> share in s'.minted && s'.minted[share] == |NextList(s, d, share)|)
  {
    ActFrame(s, d, RotateKey(h, share));
  }

  lemma RequestIsAction(s: Sys, d: Uuid, now: int, body: Body)
    requires d in s.devs && ClientBuilt(s.devs[d].dir.disk.ring, body)
    ensures Enabled(s, Request(d, now, body))
    ensures Next(s, Request(d, now, body)).devs == s.devs
    ensures Next(s, Request(d, now, body)).minted == s.minted
    ensures Next(s, Request(d, now, body)).relay == Answer(s.relay, d, now, body)
  {
  }

  /** An accepted revocation leaves its target revoked. */
  lemma RevokeTakesEffect(r: Relay, d: Uuid, now: int, target: Pub)
    requires Accepts(r, d, now, Revoke(target))
    ensures RelayRuns.IsRevoked(Answer(r, d, now, Revoke(target)), target)
  {
  }

  /**
   A revocation with rotation that succeeds is three actions of a run: revoke, mint, rotate. The run
   then rotates to the new list at its last step, with the target revoked.
   */
  lemma RevokeAndRotateIsRun(ss: seq<Sys>, acts: seq<Action>, d: Uuid, h: nat, now: int, target: Pub, body: Body)
    returns (ss': seq<Sys>, acts': seq<Action>)
    requires Runs.Run(ss, acts) && MayRotate(ss[|acts|], d, h, NIL)
    requires var s := ss[|acts|];
             var list := NextList(s, d, NIL);
             && Accepts(s.relay, d, now, Revoke(target))
             && body.Rotate? && WrapsWholeList(body, list) && ClientBuilt(s.devs[d].dir.disk.ring[NIL := list], body)
             && Accepts(Answer(s.relay, d, now, Revoke(target)), d, now, body)
    ensures Runs.Run(ss', acts') && ss <= ss'
    ensures acts' == acts + [Request(d, now, Revoke(target)), Act(d, RotateKey(h, NIL)), Request(d, now, body)]
    ensures RotatesTo(ss', acts', |acts| + 2, NextList(ss[|acts|], d, NIL))
    ensures RelayRuns.IsRevoked(ss'[|acts| + 2].relay, target)
    ensures ss'[|acts'|].relay == Answer(Answer(ss[|acts|].relay, d, now, Revoke(target)), d, now, body)
    ensures d in ss'[|acts'|].devs
    ensures var dir, dir' := ss[|acts|].devs[d].dir, ss'[|acts'|].devs[d].dir;
            && h in dir'.handles
            && ViewOf(dir', h) == KeyPushed(ViewOf(dir, h), NIL, Key(NIL, |ListOf(dir.disk.ring, NIL)|))
  {
    var s0 := ss[|acts|];
    var a0, a1, a2 := Request(d, now, Revoke(target)), Act(d, RotateKey(h, NIL)), Request(d, now, body);
    RequestIsAction(s0, d, now, Revoke(target));
    RevokeTakesEffect(s0.relay, d, now, target);
    var s1 := Next(s0, a0);
    MintIsAction(s1, d, h, NIL);
    var s2 := Next(s1, a1);
    RequestIsAction(s2, d, now, body);
    var s3 := Next(s2, a2);
    Runs.ExtendRun(ss, acts, a0);
    Runs.ExtendRun(ss + [s1], acts + [a0], a1);
    Runs.ExtendRun(ss + [s1] + [s2], acts + [a0] + [a1], a2);
    ss', acts' := ss + [s1] + [s2] + [s3], acts + [a0] + [a1] + [a2];
  }

  /** A removal from a share that succeeds is two actions of a run, and the run removes the member at its last step. */
  lemma ShareRemoveIsRun(ss: seq<Sys>, acts: seq<Action>, d: Uuid, h: nat, now: int, share: Uuid, target: Pub,
                         body: Body)
    returns (ss': seq<Sys>, acts': seq<Action>)
    requires Runs.Run(ss, acts) && MayRotate(ss[|acts|], d, h, share) && share != NIL
    requires var s := ss[|acts|];
             var list := NextList(s, d, share);
             && share in s.minted && s.minted[share] == |list| - 1
             && body.ShareRotate? && body.share == share && target in body.remove && WrapsWholeList(body, list)
             && ClientBuilt(s.devs[d].dir.disk.ring[share := list], body)
             && Accepts(s.relay, d, now, body)
    ensures Runs.Run(ss', acts') && ss <= ss'
    ensures acts' == acts + [Act(d, RotateKey(h, share)), Request(d, now, body)]
    ensures RemovesMember(ss', acts', |acts| + 1, share, NextList(ss[|acts|], d, share), target)
    ensures RotatesShareTo(ss', acts', |acts| + 1, share, NextList(ss[|acts|], d, share))
    ensures ss'[|acts'|].relay == Answer(ss[|acts|].relay, d, now, body)
  {
    var s0 := ss[|acts|];
    var a0, a1 := Act(d, RotateKey(h, share)), Request(d, now, body);
    MintIsAction(s0, d, h, share);
    var s1 := Next(s0, a0);
    RequestIsAction(s1, d, now, body);
    var s2 := Next(s1, a1);
    Runs.ExtendRun(ss, acts, a0);
    Runs.ExtendRun(ss + [s1], acts + [a0], a1);
    ss', acts' := ss + [s1] + [s2], acts + [a0] + [a1];
  }
}
