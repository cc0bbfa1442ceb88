/**
 Symbolic sealing and the per-share key lists.

 A sealed blob opens exactly under its own key and its own entry id. A key carries the share
 it was minted for and its number; fresh random keys and keys derived from the recovery
 phrase are both told apart by these two.
 */
module Keyrings {
  import opened Wrappers
  import opened Records

  datatype Key = Key(share: Uuid, serial: nat)

  datatype Blob = Sealed(key: Key, aad: Uuid, rec: Record)

  /** A log entry: its id and its sealed record. */
  datatype Frame = Frame(id: Uuid, blob: Blob)

  /** The key lists a device holds, oldest epoch first. */
  type Ring = map<Uuid, seq<Key>>

  function OpenWith(key: Key, blob: Blob, aad: Uuid): Option<Record> {
    if blob.key == key && blob.aad == aad then Some(blob.rec) else None
  }

  predicate HoldsKey(ring: Ring, key: Key) {
    exists s | s in ring :: key in ring[s]
  }

  /** Some held key opens the frame. */
  predicate Opens(ring: Ring, f: Frame) {
    f.blob.aad == f.id && HoldsKey(ring, f.blob.key)
  }

  function OpenEntry(ring: Ring, f: Frame): Option<Record> {
    if Opens(ring, f) then Some(f.blob.rec) else None
  }

  function ListOf(ring: Ring, share: Uuid): seq<Key> {
    if share in ring then ring[share] else []
  }

  /** The `(share, epoch count)` pairs a snapshot pins. */
  function Fingerprint(ring: Ring): map<Uuid, nat> {
    map s | s in ring :: |ring[s]|
  }

  predicate NonEmptyLists(ring: Ring) {
    forall s | s in ring :: ring[s] != []
  }

  // ---- the stored form: a vector searched by id -----------------------------

  datatype ShareKeys = ShareKeys(id: Uuid, keys: seq<Key>)

  ghost predicate HasId(shares: seq<ShareKeys>, id: Uuid) {
    exists i | 0 <= i < |shares| :: shares[i].id == id
  }

  /** The vector holds exactly the lists of `ring`, each share once. */
  ghost predicate Stores(shares: seq<ShareKeys>, ring: Ring) {
    && (forall i | 0 <= i < |shares| :: shares[i].id in ring && ring[shares[i].id] == shares[i].keys)
    && (forall i, j | 0 <= i < j < |shares| :: shares[i].id != shares[j].id)
    && (forall s | s in ring :: HasId(shares, s))
  }

  /** The position of a share's key list. */
  method FindShare(shares: seq<ShareKeys>, id: Uuid, ghost ring: Ring) returns (at: Option<nat>)
    requires Stores(shares, ring)
    ensures at.Some? <==> id in ring
    ensures at.Some? ==> at.value < |shares| && shares[at.value] == ShareKeys(id, ring[id])
  {
    for i := 0 to |shares|
      invariant forall j | 0 <= j < i :: shares[j].id != id
    {
      if shares[i].id == id {
        return Some(i);
      }
    }
    return None;
  }

  /** Replaces a share's whole key list, or adds the share at the end. */
  method WithList(shares: seq<ShareKeys>, id: Uuid, keys: seq<Key>, ghost ring: Ring)
    returns (updated: seq<ShareKeys>)
    requires Stores(shares, ring)
    ensures Stores(updated, ring[id := keys])
  {
    var at := FindShare(shares, id, ring);
    updated := if at.Some? then shares[at.value := ShareKeys(id, keys)] else shares + [ShareKeys(id, keys)];
    assert forall j | 0 <= j < |shares| :: updated[j].id == shares[j].id;
    forall s | s in ring[id := keys] ensures HasId(updated, s) {
      if s == id {
        assert updated[if at.Some? then at.value else |shares|].id == s;
      } else {
        assert HasId(shares, s);
        var j :| 0 <= j < |shares| && shares[j].id == s;
        assert updated[j].id == s;
      }
    }
  }

  /** Tries every held key, each share's newest first. */
  method TryOpen(shares: seq<ShareKeys>, f: Frame, ghost ring: Ring) returns (found: Option<Record>)
    requires Stores(shares, ring)
    ensures found == OpenEntry(ring, f)
  {
    for i := 0 to |shares|
      invariant f.blob.aad == f.id ==> forall j | 0 <= j < i :: f.blob.key !in shares[j].keys
    {
      var k := |shares[i].keys|;
      while k > 0
        invariant 0 <= k <= |shares[i].keys|
        invariant f.blob.aad == f.id ==> f.blob.key !in shares[i].keys[k..]
      {
        k := k - 1;
        found := OpenWith(shares[i].keys[k], f.blob, f.id);
        if found.Some? {
          assert shares[i].keys[k] in ring[shares[i].id];
          return;
        }
      }
    }
    found := None;
    forall s | s in ring ensures f.blob.aad == f.id ==> f.blob.key !in ring[s] {
      assert HasId(shares, s);
    }
  }

  /** The fingerprint in stored form. */
  method HeldShareEpochs(shares: seq<ShareKeys>, ghost ring: Ring) returns (held: seq<(Uuid, nat)>)
    requires Stores(shares, ring)
    ensures PairsOf(Fingerprint(ring), held)
  {
    held := seq(|shares|, i requires 0 <= i < |shares| => (shares[i].id, |shares[i].keys|));
    forall s | s in ring ensures (s, |ring[s]|) in held {
      assert HasId(shares, s);
      var i :| 0 <= i < |shares| && shares[i].id == s;
      assert held[i] == (s, |ring[s]|);
    }
  }

  /** `pairs` lists exactly the pairs of `m`, each once. */
  ghost predicate PairsOf(m: map<Uuid, nat>, pairs: seq<(Uuid, nat)>) {
    && (forall i | 0 <= i < |pairs| :: pairs[i].0 in m && m[pairs[i].0] == pairs[i].1)
    && (forall s | s in m :: (s, m[s]) in pairs)
    && (forall i, j | 0 <= i < j < |pairs| :: pairs[i].0 != pairs[j].0)
  }

  lemma {:induction false} PairsCount(m: map<Uuid, nat>, pairs: seq<(Uuid, nat)>)
    requires PairsOf(m, pairs)
    ensures |pairs| == |m|
  {
    if pairs == [] {
      assert m.Keys == {};
    } else {
      var last := pairs[|pairs| - 1];
      var rest := m - {last.0};
      forall s | s in rest ensures (s, rest[s]) in pairs[..|pairs| - 1] {
        assert (s, m[s]) in pairs;
      }
      PairsCount(rest, pairs[..|pairs| - 1]);
      assert m.Keys == rest.Keys + {last.0};
    }
  }

  lemma MissingPair(m: map<Uuid, nat>, n: map<Uuid, nat>, b: seq<(Uuid, nat)>, pair: (Uuid, nat))
    requires PairsOf(n, b) && pair.0 in m && m[pair.0] == pair.1 && pair !in b
    ensures m != n
  {
  }

  /** Equal length and inclusion decide whether two fingerprints are the same set. */
  method SameEpochSet(a: seq<(Uuid, nat)>, b: seq<(Uuid, nat)>, ghost m: map<Uuid, nat>, ghost n: map<Uuid, nat>)
    returns (same: bool)
    requires PairsOf(m, a) && PairsOf(n, b)
    ensures same <==> m == n
  {
    PairsCount(m, a);
    PairsCount(n, b);
    if |a| != |b| {
      return false;
    }
    for i := 0 to |a|
      invariant forall j | 0 <= j < i :: a[j] in b
    {
      if a[i] !in b {
        MissingPair(m, n, b, a[i]);
        return false;
      }
    }
    assert forall s | s in m :: (s, m[s]) in b;
    assert m.Keys <= n.Keys;
    SubsetOfSameSize(m.Keys, n.Keys);
    return true;
  }

  lemma SubsetOfSameSize<T>(a: set<T>, b: set<T>)
    requires a <= b && |a| == |b|
    ensures a == b
  {
    assert |b - a| == |b| - |a|;
  }

  // ---- growth ---------------------------------------------------------------

  /** Every list of `a` is a leading part of the same list in `b`. */
  predicate RingLe(a: Ring, b: Ring) {
    forall s | s in a :: s in b && a[s] <= b[s]
  }

  /** Absorbing a wrapped list only ever grows: a list that is not longer is ignored. */
  function Absorb(ring: Ring, share: Uuid, keys: seq<Key>): Ring {
    if share in ring && |keys| <= |ring[share]| then ring else ring[share := keys]
  }

  /** No frame that opened before stops opening when the keyring grows. */
  lemma GrowthKeepsOpen(a: Ring, b: Ring, f: Frame)
    requires RingLe(a, b) && Opens(a, f)
    ensures Opens(b, f)
  {
    var s :| s in a && f.blob.key in a[s];
    assert f.blob.key in b[s];
  }

  /** Lists of one share that are leading parts of one sequence. */
  predicate SameChain(chain: seq<Key>, ring: Ring, share: Uuid, keys: seq<Key>) {
    keys != [] && keys <= chain && ListOf(ring, share) <= chain
  }

  /**
   When all lists of a share are leading parts of one sequence, absorbing is the join of the
   prefix order: it never loses a key, ignores stale lists, and does not depend on arrival order.
   */
  lemma AbsorbIsJoin(chain: seq<Key>, ring: Ring, share: Uuid, keys: seq<Key>, more: seq<Key>)
    requires NonEmptyLists(ring)
    requires SameChain(chain, ring, share, keys) && SameChain(chain, ring, share, more)
    ensures RingLe(ring, Absorb(ring, share, keys)) && keys <= ListOf(Absorb(ring, share, keys), share)
    ensures forall up: Ring | RingLe(ring, up) && share in up && keys <= up[share] ::
              RingLe(Absorb(ring, share, keys), up)
    ensures keys <= ListOf(ring, share) ==> Absorb(ring, share, keys) == ring
    ensures Absorb(Absorb(ring, share, keys), share, more) == Absorb(Absorb(ring, share, more), share, keys)
    ensures NonEmptyLists(Absorb(ring, share, keys))
  {
    var r1, r2 := Absorb(ring, share, keys), Absorb(ring, share, more);
    assert |keys| == |more| ==> keys == more;
    assert Absorb(r1, share, more) == Absorb(r2, share, keys);
  }

  /**
   Without one common sequence a longer list replaces the old one, and a frame keeps opening exactly
   when its key is in the new list or in another share's.
   */
  lemma DivergentListLosesFrames(ring: Ring, share: Uuid, keys: seq<Key>, f: Frame)
    requires |keys| > |ListOf(ring, share)| && Opens(ring, f)
    ensures Opens(Absorb(ring, share, keys), f)
            <==> f.blob.key in keys || exists s :: s in ring && s != share && f.blob.key in ring[s]
  {
    var grown := Absorb(ring, share, keys);
    assert share in grown && grown[share] == keys;
    if s :| s in ring && s != share && f.blob.key in ring[s] {
      assert s in grown && grown[s] == ring[s];
    }
  }
}
