/**
 Field-level last-writer-wins merge.

 `Join` and `FoldInto` say what the two loops of merge.rs compute. A joined record is
 characterised by `IsJoin`: every component comes from one of the snapshots and none of the
 snapshots is newer. That holds for all inputs; when the snapshots are coherent it determines
 the record, which makes merging independent of order and repetition.
 */
module Merging {
  import opened Wrappers
  import opened Records

  type State = map<Uuid, Record>

  // ---- the merge of two snapshots ------------------------------------------

  function KindMax(a: Kind, b: Kind): Kind {
    if b.Rank() >= a.Rank() then b else a
  }

  function LaterOf(a: Option<Clock>, b: Option<Clock>): Option<Clock> {
    if a.None? || (b.Some? && a.value.AtMost(b.value)) then b else a
  }

  function JoinFields(a: Fields, b: Fields): Fields {
    map n | n in a.Keys + b.Keys ::
      if n in b && !(n in a && b[n].clock.AtMost(a[n].clock)) then b[n] else a[n]
  }

  function Join(a: Record, b: Record): Record {
    var newer := if b.clock.AtMost(a.clock) then a else b;
    Record(a.id, KindMax(a.kind, b.kind), JoinFields(a.fields, b.fields), LaterOf(a.deletedAt, b.deletedAt),
           newer.clock, newer.deviceId, MaxNat(a.modifiedAt, b.modifiedAt), newer.shareId)
  }

  /** Merges two snapshots of one record. */
  method Merge(a: Record, b: Record) returns (m: Record)
    requires a.id == b.id
    ensures m == Join(a, b)
  {
    var fields := a.fields;
    var todo := b.fields.Keys;
    while todo != {}
      invariant todo <= b.fields.Keys
      invariant fields.Keys == a.fields.Keys + (b.fields.Keys - todo)
      invariant forall n | n in fields ::
        fields[n] == if n in todo then a.fields[n] else JoinFields(a.fields, b.fields)[n]
      decreases todo
    {
      var name :| name in todo;
      if !(name in fields && b.fields[name].clock.AtMost(fields[name].clock)) {
        fields := fields[name := b.fields[name]];
      }
      todo := todo - {name};
    }
    assert fields == JoinFields(a.fields, b.fields);
    var kind := KindMax(a.kind, b.kind);
    var newer, older := b, a;
    if b.clock.AtMost(a.clock) {
      newer, older := a, b;
    }
    m := Record(a.id, kind, fields, LaterOf(a.deletedAt, b.deletedAt), newer.clock, newer.deviceId,
                MaxNat(newer.modifiedAt, older.modifiedAt), newer.shareId);
  }

  // ---- the fold of many snapshots ------------------------------------------

  function MergeInto(state: State, r: Record): State {
    state[r.id := if r.id in state then Join(state[r.id], r) else r]
  }

  function FoldInto(state: State, rs: seq<Record>): State {
    if rs == [] then state else MergeInto(FoldInto(state, rs[..|rs| - 1]), rs[|rs| - 1])
  }

  predicate Keyed(state: State) {
    forall id | id in state :: state[id].id == id
  }

  /** Folds snapshots, in any order and with repeats, into one record per id. */
  method MergeAll(rs: seq<Record>) returns (state: State)
    ensures state == FoldInto(map[], rs)
  {
    state := map[];
    for i := 0 to |rs|
      invariant state == FoldInto(map[], rs[..i])
      invariant Keyed(state)
    {
      var rec := rs[i];
      assert rs[..i + 1][..i] == rs[..i];
      if rec.id in state {
        var merged := Merge(state[rec.id], rec);
        state := state[rec.id := merged];
      } else {
        state := state[rec.id := rec];
      }
    }
    assert rs[..|rs|] == rs;
  }

  // ---- coherence and the information order ---------------------------------

  /**
   Two snapshots of one record are coherent when a clock names one write: fields with equal
   clocks are equal, and equal snapshot clocks mean the same device and the same share.
   */
  predicate Coherent(a: Record, b: Record) {
    && (forall n | n in a.fields && n in b.fields && a.fields[n].clock == b.fields[n].clock ::
          a.fields[n] == b.fields[n])
    && (a.clock == b.clock ==> a.deviceId == b.deviceId && a.shareId == b.shareId)
  }

  ghost predicate CoherentSet(rs: set<Record>) {
    forall a, b | a in rs && b in rs && a.id == b.id :: Coherent(a, b)
  }

  predicate OptAtMost(a: Option<Clock>, b: Option<Clock>) {
    a.Some? ==> b.Some? && a.value.AtMost(b.value)
  }

  /** No component of `r` is newer than the same component of `j`. */
  predicate Covers(j: Record, r: Record) {
    && r.id == j.id
    && r.kind.Rank() <= j.kind.Rank()
    && (forall n | n in r.fields :: n in j.fields && r.fields[n].clock.AtMost(j.fields[n].clock))
    && OptAtMost(r.deletedAt, j.deletedAt)
    && r.clock.AtMost(j.clock)
    && r.modifiedAt <= j.modifiedAt
  }

  /** The information order: `b` knows at least what `a` knows. */
  predicate Le(a: Record, b: Record) {
    Covers(b, a) && Coherent(a, b)
  }

  /** `Le` is a partial order. */
  lemma OrderIsPartial(a: Record, b: Record, c: Record)
    ensures Le(a, a)
    ensures Le(a, b) && Le(b, a) ==> a == b
    ensures Le(a, b) && Le(b, c) ==> Le(a, c)
  {
    if Le(a, b) && Le(b, a) {
      RanksDiffer(a.kind, b.kind);
      assert a.fields == b.fields;
    }
    if Le(a, b) && Le(b, c) {
      assert Covers(c, a);
    }
  }

  lemma RanksDiffer(a: Kind, b: Kind)
    ensures a.Rank() == b.Rank() ==> a == b
  {
  }

  /** On coherent snapshots the merge is the least upper bound of the information order. */
  lemma MergeIsLeastUpperBound(a: Record, b: Record)
    requires a.id == b.id && Coherent(a, b)
    ensures Le(a, Join(a, b)) && Le(b, Join(a, b))
    ensures forall u | Le(a, u) && Le(b, u) :: Le(Join(a, b), u)
  {
    var j := Join(a, b);
    forall u | Le(a, u) && Le(b, u)
      ensures Le(j, u)
    {
      forall n | n in j.fields
        ensures n in u.fields && j.fields[n].clock.AtMost(u.fields[n].clock)
      {
        assert n in a.fields || n in b.fields;
      }
    }
  }

  /** The two merge orders agree exactly on coherent snapshots. */
  lemma MergeCommutesIff(a: Record, b: Record)
    requires a.id == b.id
    ensures Join(a, b) == Join(b, a) <==> Coherent(a, b)
  {
    var ab, ba := Join(a, b), Join(b, a);
    RanksDiffer(a.kind, b.kind);
    if Coherent(a, b) {
      assert ab.fields == ba.fields;
    } else if ab == ba {
      forall n | n in a.fields && n in b.fields && a.fields[n].clock == b.fields[n].clock
        ensures a.fields[n] == b.fields[n]
      {
        assert ab.fields[n] == a.fields[n] && ba.fields[n] == b.fields[n];
      }
      assert false;
    }
  }

  // ---- joins of sets --------------------------------------------------------

  ghost predicate HasKind(rs: set<Record>, k: Kind) {
    exists r :: r in rs && r.kind == k
  }

  ghost predicate HasField(rs: set<Record>, n: string, f: Field) {
    exists r :: r in rs && n in r.fields && r.fields[n] == f
  }

  ghost predicate HasTombstone(rs: set<Record>, c: Clock) {
    exists r :: r in rs && r.deletedAt == Some(c)
  }

  ghost predicate HasStamp(rs: set<Record>, clock: Clock, device: Uuid, share: Uuid) {
    exists r :: r in rs && r.clock == clock && r.deviceId == device && r.shareId == share
  }

  ghost predicate HasTime(rs: set<Record>, t: nat) {
    exists r :: r in rs && r.modifiedAt == t
  }

  /** Every component of `j` is a component of some snapshot in `rs`. */
  ghost predicate BuiltFrom(j: Record, rs: set<Record>) {
    && HasKind(rs, j.kind)
    && (forall n | n in j.fields :: HasField(rs, n, j.fields[n]))
    && (j.deletedAt.Some? ==> HasTombstone(rs, j.deletedAt.value))
    && HasStamp(rs, j.clock, j.deviceId, j.shareId)
    && HasTime(rs, j.modifiedAt)
  }

  ghost predicate IsJoin(j: Record, rs: set<Record>) {
    BuiltFrom(j, rs) && forall r | r in rs :: Covers(j, r)
  }

  ghost function WithId(rs: set<Record>, id: Uuid): set<Record> {
    set r | r in rs && r.id == id
  }

  ghost function SetOf(rs: seq<Record>): set<Record> {
    set r | r in rs
  }

  /** `state` is the merged state of exactly the snapshots `rs`. */
  ghost predicate StateOf(state: State, rs: set<Record>) {
    && (forall r | r in rs :: r.id in state)
    && (forall id | id in state :: state[id].id == id && IsJoin(state[id], WithId(rs, id)))
  }

  lemma BuiltFromMore(j: Record, rs: set<Record>, more: set<Record>)
    requires BuiltFrom(j, rs) && rs <= more
    ensures BuiltFrom(j, more)
  {
    forall n | n in j.fields ensures HasField(more, n, j.fields[n]) {
      assert HasField(rs, n, j.fields[n]);
    }
  }

  /** Merging never invents a value: the result is built from what both sides were built from. */
  lemma JoinBuiltFrom(a: Record, b: Record, rs: set<Record>)
    requires BuiltFrom(a, rs) && BuiltFrom(b, rs)
    ensures BuiltFrom(Join(a, b), rs)
  {
    var j := Join(a, b);
    forall n | n in j.fields ensures HasField(rs, n, j.fields[n]) {
      assert n in a.fields ==> HasField(rs, n, a.fields[n]);
      assert n in b.fields ==> HasField(rs, n, b.fields[n]);
    }
  }

  lemma SelfBuilt(r: Record)
    ensures BuiltFrom(r, {r})
  {
    forall n | n in r.fields ensures HasField({r}, n, r.fields[n]) {
      assert r in {r};
    }
    assert r in {r};
  }

  lemma JoinCovers(a: Record, b: Record)
    requires a.id == b.id
    ensures Covers(Join(a, b), a) && Covers(Join(a, b), b)
  {
  }

  lemma CoversTransitive(a: Record, b: Record, c: Record)
    requires Covers(a, b) && Covers(b, c)
    ensures Covers(a, c)
  {
  }

  lemma SingleIsJoin(r: Record)
    ensures IsJoin(r, {r})
  {
    SelfBuilt(r);
  }

  /** Merging two joins gives the join of the union. */
  lemma JoinOfJoins(j: Record, rs: set<Record>, k: Record, qs: set<Record>)
    requires IsJoin(j, rs) && IsJoin(k, qs) && j.id == k.id
    ensures IsJoin(Join(j, k), rs + qs)
  {
    BuiltFromMore(j, rs, rs + qs);
    BuiltFromMore(k, qs, rs + qs);
    JoinBuiltFrom(j, k, rs + qs);
    JoinCovers(j, k);
    forall r | r in rs + qs ensures Covers(Join(j, k), r) {
      CoversTransitive(Join(j, k), if r in rs then j else k, r);
    }
  }

  lemma WithIdOfMore(rs: set<Record>, r: Record, id: Uuid)
    ensures WithId(rs + {r}, id) == if id == r.id then WithId(rs, id) + {r} else WithId(rs, id)
  {
  }

  /** The record a snapshot is merged into is the join of what it was built from and the snapshot. */
  lemma MergedIsJoin(state: State, rs: set<Record>, r: Record)
    requires StateOf(state, rs)
    ensures var j := MergeInto(state, r)[r.id]; j.id == r.id && IsJoin(j, WithId(rs, r.id) + {r})
  {
    SingleIsJoin(r);
    if r.id in state {
      JoinOfJoins(state[r.id], WithId(rs, r.id), r, {r});
    } else {
      assert WithId(rs, r.id) == {};
      assert WithId(rs, r.id) + {r} == {r};
    }
  }

  lemma MergeIntoExtends(state: State, rs: set<Record>, r: Record)
    requires StateOf(state, rs)
    ensures StateOf(MergeInto(state, r), rs + {r})
  {
    var state' := MergeInto(state, r);
    forall id | id in state'
      ensures state'[id].id == id && IsJoin(state'[id], WithId(rs + {r}, id))
    {
      WithIdOfMore(rs, r, id);
      if id == r.id {
        MergedIsJoin(state, rs, r);
      }
    }
  }

  lemma SetOfSnoc(rs: seq<Record>)
    requires rs != []
    ensures SetOf(rs) == SetOf(rs[..|rs| - 1]) + {rs[|rs| - 1]}
  {
    assert rs == rs[..|rs| - 1] + [rs[|rs| - 1]];
  }

  /** Folding a sequence yields the join of its snapshots, whether or not they are coherent. */
  lemma {:induction false} FoldIsJoin(rs: seq<Record>)
    ensures StateOf(FoldInto(map[], rs), SetOf(rs))
  {
    if rs != [] {
      var front, last := rs[..|rs| - 1], rs[|rs| - 1];
      FoldIsJoin(front);
      MergeIntoExtends(FoldInto(map[], front), SetOf(front), last);
      SetOfSnoc(rs);
    }
  }

  /** What is built from some coherent snapshots is below the join of all of them. */
  lemma BuiltIsBelowJoin(part: Record, j: Record, rs: set<Record>)
    requires forall a, b | a in rs && b in rs :: Coherent(a, b)
    requires part.id == j.id && BuiltFrom(part, rs) && IsJoin(j, rs)
    ensures Le(part, j)
  {
    forall n | n in part.fields
      ensures n in j.fields && part.fields[n].clock.AtMost(j.fields[n].clock)
      ensures part.fields[n].clock == j.fields[n].clock ==> part.fields[n] == j.fields[n]
    {
      assert HasField(rs, n, part.fields[n]);
      var r :| r in rs && n in r.fields && r.fields[n] == part.fields[n];
      assert Covers(j, r);
      assert HasField(rs, n, j.fields[n]);
      var q :| q in rs && n in q.fields && q.fields[n] == j.fields[n];
      assert Coherent(r, q);
    }
    var r :| r in rs && r.clock == part.clock && r.deviceId == part.deviceId && r.shareId == part.shareId;
    var q :| q in rs && q.clock == j.clock && q.deviceId == j.deviceId && q.shareId == j.shareId;
    assert Coherent(r, q) && Covers(j, r);
  }

  /** Coherent snapshots have one join. */
  lemma JoinIsUnique(j: Record, k: Record, rs: set<Record>)
    requires forall a, b | a in rs && b in rs :: Coherent(a, b)
    requires j.id == k.id && IsJoin(j, rs) && IsJoin(k, rs)
    ensures j == k
  {
    BuiltIsBelowJoin(j, k, rs);
    BuiltIsBelowJoin(k, j, rs);
    OrderIsPartial(j, k, k);
  }

  lemma MergeIdempotent(a: Record)
    ensures Join(a, a) == a
  {
    assert Join(a, a).fields == a.fields;
  }

  lemma JoinFieldsAssociative(a: Fields, b: Fields, c: Fields)
    ensures JoinFields(JoinFields(a, b), c) == JoinFields(a, JoinFields(b, c))
  {
    var left, right := JoinFields(JoinFields(a, b), c), JoinFields(a, JoinFields(b, c));
    assert left.Keys == right.Keys;
    forall n | n in left ensures left[n] == right[n] {
    }
  }

  /** Merging is associative on all snapshots of a record, coherent or not. */
  lemma MergeAssociative(a: Record, b: Record, c: Record)
    requires a.id == b.id == c.id
    ensures Join(Join(a, b), c) == Join(a, Join(b, c))
  {
    JoinFieldsAssociative(a.fields, b.fields, c.fields);
    RanksDiffer(a.kind, b.kind);
    RanksDiffer(b.kind, c.kind);
    RanksDiffer(a.kind, c.kind);
  }

  /** What is built from snapshots coherent with `c` is coherent with `c`. */
  lemma BuiltIsCoherent(j: Record, rs: set<Record>, c: Record)
    requires BuiltFrom(j, rs)
    requires forall r | r in rs :: Coherent(r, c)
    ensures Coherent(j, c)
  {
    forall n | n in j.fields && n in c.fields && j.fields[n].clock == c.fields[n].clock
      ensures j.fields[n] == c.fields[n]
    {
      assert HasField(rs, n, j.fields[n]);
    }
  }

  /** Merging keeps coherence with every third snapshot. */
  lemma MergeKeepsCoherence(a: Record, b: Record, c: Record)
    requires Coherent(a, c) && Coherent(b, c)
    ensures Coherent(Join(a, b), c)
  {
    SelfBuilt(a);
    SelfBuilt(b);
    BuiltFromMore(a, {a}, {a, b});
    BuiltFromMore(b, {b}, {a, b});
    JoinBuiltFrom(a, b, {a, b});
    BuiltIsCoherent(Join(a, b), {a, b}, c);
  }

  /** Coherent snapshots have one merged state. */
  lemma StateIsUnique(s: State, t: State, rs: set<Record>)
    requires CoherentSet(rs) && StateOf(s, rs) && StateOf(t, rs)
    ensures s == t
  {
    forall id
      ensures id in s <==> id in t
      ensures id in s ==> s[id] == t[id]
    {
      if id in s {
        assert HasKind(WithId(rs, id), s[id].kind);
      }
      if id in t {
        assert HasKind(WithId(rs, id), t[id].kind);
      }
      if id in s && id in t {
        JoinIsUnique(s[id], t[id], WithId(rs, id));
      }
    }
  }

  /** Any two sequences of the same coherent snapshots fold to the same state. */
  lemma MergeAllDependsOnSetOnly(rs: seq<Record>, qs: seq<Record>)
    requires SetOf(rs) == SetOf(qs)
    requires CoherentSet(SetOf(rs))
    ensures FoldInto(map[], rs) == FoldInto(map[], qs)
  {
    FoldIsJoin(rs);
    FoldIsJoin(qs);
    StateIsUnique(FoldInto(map[], rs), FoldInto(map[], qs), SetOf(rs));
  }

  // ---- deletion -------------------------------------------------------------

  ghost predicate AboveAllFields(rs: set<Record>, c: Clock) {
    forall r, n | r in rs && n in r.fields :: r.fields[n].clock.Before(c)
  }

  lemma TombstoneAbove(j: Record, rs: set<Record>)
    requires IsDeleted(j) && forall r | r in rs :: Covers(j, r)
    ensures AboveAllFields(rs, j.deletedAt.value)
  {
    forall r, n | r in rs && n in r.fields ensures r.fields[n].clock.Before(j.deletedAt.value) {
      assert Covers(j, r);
    }
  }

  lemma TombstoneDeletes(j: Record, rs: set<Record>, c: Clock)
    requires forall n | n in j.fields :: HasField(rs, n, j.fields[n])
    requires AboveAllFields(rs, c) && OptAtMost(Some(c), j.deletedAt)
    ensures IsDeleted(j)
  {
    forall n | n in j.fields ensures j.fields[n].clock.Before(c) {
      assert HasField(rs, n, j.fields[n]);
    }
  }

  lemma TombstoneIsCovered(j: Record, rs: set<Record>, c: Clock)
    requires HasTombstone(rs, c) && forall r | r in rs :: Covers(j, r)
    ensures OptAtMost(Some(c), j.deletedAt)
  {
    var t :| t in rs && t.deletedAt == Some(c);
    assert Covers(j, t);
  }

  /** A joined record is deleted exactly when some snapshot's tombstone is above every field clock in all of them. */
  lemma DeletedIff(j: Record, rs: set<Record>)
    requires IsJoin(j, rs)
    ensures IsDeleted(j) <==> exists c :: HasTombstone(rs, c) && AboveAllFields(rs, c)
  {
    if IsDeleted(j) {
      TombstoneAbove(j, rs);
      assert HasTombstone(rs, j.deletedAt.value);
    } else {
      forall c | HasTombstone(rs, c) ensures !AboveAllFields(rs, c) {
        TombstoneIsCovered(j, rs, c);
        if AboveAllFields(rs, c) {
          TombstoneDeletes(j, rs, c);
        }
      }
    }
  }

  /** A tombstone above every field clock wins in every order, whatever is merged again or merged first. */
  lemma NoResurrection(rs: seq<Record>, tomb: Record, c: Clock)
    requires tomb in rs && tomb.deletedAt == Some(c)
    requires AboveAllFields(WithId(SetOf(rs), tomb.id), c)
    ensures tomb.id in FoldInto(map[], rs) && IsDeleted(FoldInto(map[], rs)[tomb.id])
  {
    FoldIsJoin(rs);
    var all := SetOf(rs);
    assert tomb in WithId(all, tomb.id);
    assert HasTombstone(WithId(all, tomb.id), c);
    DeletedIff(FoldInto(map[], rs)[tomb.id], WithId(all, tomb.id));
  }

  ghost predicate HasContent(rs: set<Record>) {
    exists r :: r in rs && !r.kind.Tombstone?
  }

  /**
   A joined record is live exactly when some snapshot is more than a tombstone and no tombstone clock
   among the snapshots is above every field clock in all of them.
   */
  lemma LiveIff(j: Record, rs: set<Record>)
    requires IsJoin(j, rs)
    ensures Live(j) <==> HasContent(rs) && !exists c :: HasTombstone(rs, c) && AboveAllFields(rs, c)
  {
    DeletedIff(j, rs);
    var k :| k in rs && k.kind == j.kind;
    if HasContent(rs) {
      var r :| r in rs && !r.kind.Tombstone?;
      assert Covers(j, r);
    }
  }

  /** A write of a field that no tombstone is above keeps its record live, in every order. */
  lemma LaterEditSurvives(rs: seq<Record>, edit: Record, n: string)
    requires edit in rs && n in edit.fields
    requires forall t | t in rs && t.id == edit.id && t.deletedAt.Some? ::
      !edit.fields[n].clock.Before(t.deletedAt.value)
    ensures edit.id in FoldInto(map[], rs) && !IsDeleted(FoldInto(map[], rs)[edit.id])
    ensures !edit.kind.Tombstone? ==> Live(FoldInto(map[], rs)[edit.id])
  {
    FoldIsJoin(rs);
    var all := SetOf(rs);
    var same := WithId(all, edit.id);
    assert edit in same;
    DeletedIff(FoldInto(map[], rs)[edit.id], same);
    forall c | HasTombstone(same, c) ensures !AboveAllFields(same, c) {
      var t :| t in same && t.deletedAt == Some(c);
      assert !edit.fields[n].clock.Before(c);
    }
    LiveIff(FoldInto(map[], rs)[edit.id], same);
  }
}
