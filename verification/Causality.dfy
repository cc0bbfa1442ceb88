/**
 Causality and reading one's own writes, over runs of any number of devices in which every frame
 could be opened when it was taken in (H5, and nothing else): replay does not raise the Lamport
 counter for frames that become openable later.
 */
module Causality {
  import opened Records
  import opened Merging
  import opened Keyrings
  import opened VaultSpec
  import opened VaultRuns
  import opened Fleet

  /** H5 for one move. */
  predicate OpensWhatItTakes(w: World, m: Move) {
    m.Section? && m.op.Apply? && m.d in w.dirs && m.h in w.dirs[m.d].handles ==>
      Opens(w.dirs[m.d].handles[m.h].ring, m.op.frame)
  }

  ghost predicate CausalRun(ws: seq<World>, ms: seq<Move>) {
    && FleetRun(ws, ms)
    && (forall i: nat {:trigger OpensWhatItTakes(ws[i], ms[i])} | i < |ms| :: OpensWhatItTakes(ws[i], ms[i]))
  }

  /** No part of the record is later than the record's own clock. */
  predicate OwnClockIsLatest(r: Record) {
    && (forall n | n in r.fields :: r.fields[n].clock.lamport <= r.clock.lamport)
    && (r.deletedAt.Some? ==> r.deletedAt.value.lamport <= r.clock.lamport)
  }

  /** The counter has passed every record in the log and every record waiting to be appended. */
  ghost predicate CounterIsAhead(dir: Dir) {
    && (forall f | f in dir.disk.log :: f.blob.rec.clock.lamport <= dir.disk.meta.lamport)
    && (forall h | h in dir.handles && dir.handles[h].pending.Some? ::
          dir.handles[h].pending.value.clock.lamport <= dir.disk.meta.lamport)
  }

  ghost predicate CausalInv(w: World) {
    && (forall r | r in w.issued :: OwnClockIsLatest(r))
    && (forall d | d in w.dirs :: CounterIsAhead(w.dirs[d]))
  }

  // ---- what a handle sees ---------------------------------------------------------------

  /** Every component of the record is at or below the counter value. */
  predicate Within(r: Record, lamport: nat) {
    && r.clock.lamport <= lamport
    && (forall n | n in r.fields :: r.fields[n].clock.lamport <= lamport)
    && (r.deletedAt.Some? ==> r.deletedAt.value.lamport <= lamport)
  }

  lemma BuiltIsWithin(part: Record, rs: set<Record>, lamport: nat)
    requires BuiltFrom(part, rs) && forall r | r in rs :: Within(r, lamport)
    ensures Within(part, lamport)
  {
    forall n | n in part.fields ensures part.fields[n].clock.lamport <= lamport {
      assert HasField(rs, n, part.fields[n]);
    }
  }

  lemma MemoryIsWithin(w: World, d: Uuid, h: nat, id: Uuid)
    requires FleetInv(w) && CausalInv(w) && d in w.dirs && h in w.dirs[d].handles && id in w.dirs[d].handles[h].state
    ensures Within(w.dirs[d].handles[h].state[id], w.dirs[d].disk.meta.lamport)
  {
    var dir := w.dirs[d];
    var rs := LogRecords(dir.disk.log);
    assert VaultOk(d, dir, w.frames, w.issued);
    LoggedIsIssued(dir.disk.log, w.frames, w.issued);
    forall r | r in rs ensures Within(r, dir.disk.meta.lamport) {
      assert OwnClockIsLatest(r);
    }
    BuiltIsWithin(dir.handles[h].state[id], WithId(rs, id), dir.disk.meta.lamport);
  }

  // ---- the invariant ----------------------------------------------------------------------

  lemma DraftIsOwnLatest(me: Handle, i: Intent, c: Clock, now: nat, lamport: nat)
    requires CanDraft(me, i) && lamport <= c.lamport
    requires !i.AddIntent? ==> Within(me.state[i.id], lamport)
    ensures OwnClockIsLatest(Draft(me, i, c, now))
  {
  }

  lemma NewDraftIsOwnLatest(w: World, d: Uuid, h: nat, op: LocalOp, r: Record)
    requires FleetInv(w) && CausalInv(w) && d in w.dirs && r in DraftedBy(w.dirs[d], h, op)
    ensures OwnClockIsLatest(r)
  {
    var dir := w.dirs[d];
    assert VaultOk(d, dir, w.frames, w.issued);
    NextClockIsFresh(w.dirs, w.issued, d, h);
    if !op.intent.AddIntent? {
      MemoryIsWithin(w, d, h, op.intent.id);
    }
    DraftIsOwnLatest(dir.handles[h], op.intent, NextClock(ViewOf(dir, h)), op.now, dir.disk.meta.lamport);
  }

  lemma SectionKeepsAhead(dir: Dir, h: nat, op: LocalOp)
    requires CountersInv(dir) && LocalEnabled(dir, h, op) && CounterIsAhead(dir)
    requires op.Apply? ==> Opens(dir.handles[h].ring, op.frame)
    ensures CounterIsAhead(LocalNext(dir, h, op))
  {
    LocalStepGrows(dir, h, op);
    SectionBrings(dir, h, op);
    LocalFrame(dir, h, op);
  }

  lemma MoveKeepsCausal(w: World, m: Move)
    requires FleetInv(w) && CausalInv(w) && MoveEnabled(w, m) && OpensWhatItTakes(w, m)
    ensures CausalInv(Moved(w, m))
  {
    if m.Section? {
      assert VaultOk(m.d, w.dirs[m.d], w.frames, w.issued);
      SectionKeepsAhead(w.dirs[m.d], m.h, m.op);
      forall r | r in DraftedBy(w.dirs[m.d], m.h, m.op) ensures OwnClockIsLatest(r) {
        NewDraftIsOwnLatest(w, m.d, m.h, m.op, r);
      }
    }
  }

  lemma {:induction false} RunKeepsCausal(ws: seq<World>, ms: seq<Move>, n: nat)
    requires CausalRun(ws, ms) && n < |ws|
    ensures CausalInv(ws[n]) && FleetInv(ws[n])
  {
    FleetRunKeepsInv(ws, ms, n);
    if n > 0 {
      RunKeepsCausal(ws, ms, n - 1);
      assert MoveAt(ws, ms, n - 1) && OpensWhatItTakes(ws[n - 1], ms[n - 1]);
      MoveKeepsCausal(ws[n - 1], ms[n - 1]);
    }
  }

  /** On every such run the clock a write gets beats every record and field clock in the handle's memory. */
  lemma IssuedClockBeatsMemory(ws: seq<World>, ms: seq<Move>, n: nat, d: Uuid, h: nat, id: Uuid)
    requires CausalRun(ws, ms) && n < |ws| && d in ws[n].dirs && h in ws[n].dirs[d].handles
    requires id in ws[n].dirs[d].handles[h].state
    ensures RecordBefore(ws[n].dirs[d].handles[h].state[id], NextClock(ViewOf(ws[n].dirs[d], h)))
  {
    RunKeepsCausal(ws, ms, n);
    MemoryIsWithin(ws[n], d, h, id);
    assert VaultOk(d, ws[n].dirs[d], ws[n].frames, ws[n].issued);
    NextClockIsFresh(ws[n].dirs, ws[n].issued, d, h);
  }

  /**
   After a pulled entry is kept, the next clock is above it exactly when it was opened or was behind
   the counter.
   */
  lemma AppliedIsOutrunIff(v: View, f: Frame)
    ensures f.blob.rec.clock.lamport < NextClock(Applied(v, f)).lamport
            <==> Opens(v.me.ring, f) || f.blob.rec.clock.lamport <= AbsorbedMeta(v).lamport
  {
  }

  // ---- one write, with others in between ---------------------------------------------------

  predicate UsesHandle(m: Move, d: Uuid, h: nat) {
    m.Section? && m.d == d && m.h == h
  }

  /** A handle between issuing a clock and appending is touched by nobody else. */
  lemma {:induction false} WaitingHandleKept(ws: seq<World>, ms: seq<Move>, i: nat, n: nat, d: Uuid, h: nat)
    requires FleetRun(ws, ms) && i <= n < |ws|
    requires forall k: nat {:trigger ms[k]} | i <= k < n :: !UsesHandle(ms[k], d, h)
    requires d in ws[i].dirs && h in ws[i].dirs[d].handles
    ensures d in ws[n].dirs && h in ws[n].dirs[d].handles && ws[n].dirs[d].handles[h] == ws[i].dirs[d].handles[h]
  {
    if i < n {
      WaitingHandleKept(ws, ms, i, n - 1, d, h);
      assert MoveAt(ws, ms, n - 1);
      var m := ms[n - 1];
      assert !UsesHandle(m, d, h);
      if m.Section? && m.d == d {
        LocalFrame(ws[n - 1].dirs[d], m.h, m.op);
      }
    }
  }

  /** Steps `i` and `j` are the two sections of one local write. */
  ghost predicate WritesAt(ws: seq<World>, ms: seq<Move>, i: nat, j: nat, d: Uuid, h: nat, intent: Intent, now: nat,
                           entry: Uuid)
  {
    && FleetRun(ws, ms) && i < j < |ms|
    && ms[i] == Section(d, h, Issue(intent, now)) && ms[j] == Section(d, h, Append(entry))
    && (forall k: nat {:trigger ms[k]} | i < k < j :: !UsesHandle(ms[k], d, h))
  }

  lemma AppendedMemory(v: View, w: View, entry: Uuid)
    requires v.me == w.me && CanAppend(v.me)
    ensures Appended(v, entry).me == Appended(w, entry).me
  {
  }

  /** Whatever happens in between, a write ends as if its two sections were one. */
  lemma WriteIsAtomic(ws: seq<World>, ms: seq<Move>, i: nat, j: nat, d: Uuid, h: nat, intent: Intent, now: nat,
                      entry: Uuid)
    requires WritesAt(ws, ms, i, j, d, h, intent, now, entry)
    ensures d in ws[i].dirs && h in ws[i].dirs[d].handles && CanDraft(ws[i].dirs[d].handles[h], intent)
    ensures CanAppend(Drafted(ViewOf(ws[i].dirs[d], h), intent, now).me)
    ensures d in ws[j + 1].dirs && h in ws[j + 1].dirs[d].handles
    ensures ws[j + 1].dirs[d].handles[h] == Appended(Drafted(ViewOf(ws[i].dirs[d], h), intent, now), entry).me
  {
    assert MoveAt(ws, ms, i) && MoveAt(ws, ms, j);
    var drafted := Drafted(ViewOf(ws[i].dirs[d], h), intent, now);
    assert ws[i + 1].dirs[d].handles[h] == drafted.me;
    WaitingHandleKept(ws, ms, i + 1, j, d, h);
    AppendedMemory(ViewOf(ws[j].dirs[d], h), drafted, entry);
  }

  lemma RememberedIsIssued(w: World, d: Uuid, h: nat, id: Uuid)
    requires FleetInv(w) && d in w.dirs && h in w.dirs[d].handles && id in w.dirs[d].handles[h].state
    ensures exists r :: r in w.issued && r.id == id
  {
    var dir := w.dirs[d];
    assert VaultOk(d, dir, w.frames, w.issued);
    LoggedIsIssued(dir.disk.log, w.frames, w.issued);
    assert HasKind(WithId(LogRecords(dir.disk.log), id), dir.handles[h].state[id].kind);
  }

  lemma NewIdIsUnknown(w: World, d: Uuid, h: nat, id: Uuid)
    requires FleetInv(w) && d in w.dirs && h in w.dirs[d].handles && forall r | r in w.issued :: r.id != id
    ensures id !in w.dirs[d].handles[h].state
  {
    if id in w.dirs[d].handles[h].state {
      RememberedIsIssued(w, d, h, id);
    }
  }

  /** The record is found under its kind and each name its payload holds, and no other. */
  ghost predicate FoundUnder(state: State, id: Uuid, kind: Kind, values: map<string, Json>) {
    forall k, nameField, name ::
      Matches(state, k, nameField, name, id) <==>
        && k == kind && !kind.Tombstone?
        && nameField in values && values[nameField] == JString(name)
  }

  /**
   On every run, H5 or not, when an add is through, the handle's memory has the new record with exactly
   the payload's values, live unless a tombstone was added, and finds it under the name in its payload.
   */
  lemma AddIsRead(ws: seq<World>, ms: seq<Move>, i: nat, j: nat, d: Uuid, h: nat, id: Uuid, kind: Kind,
                  values: map<string, Json>, share: Uuid, now: nat, entry: Uuid)
    requires WritesAt(ws, ms, i, j, d, h, AddIntent(id, kind, values, share), now, entry)
    ensures d in ws[j + 1].dirs && h in ws[j + 1].dirs[d].handles && id in ws[j + 1].dirs[d].handles[h].state
    ensures var rec := ws[j + 1].dirs[d].handles[h].state[id];
            && (Live(rec) <==> !kind.Tombstone?) && rec.kind == kind && rec.shareId == share
            && rec.fields.Keys == values.Keys && (forall n | n in values :: rec.fields[n].value == values[n])
    ensures FoundUnder(ws[j + 1].dirs[d].handles[h].state, id, kind, values)
  {
    WriteIsAtomic(ws, ms, i, j, d, h, AddIntent(id, kind, values, share), now, entry);
    FleetRunKeepsInv(ws, ms, i);
    assert MoveAt(ws, ms, i);
    NewIdIsUnknown(ws[i], d, h, id);
    AddReadsBack(ViewOf(ws[i].dirs[d], h), id, kind, values, share, now, entry);
  }

  lemma MemoryIsKeyed(ws: seq<World>, ms: seq<Move>, n: nat, d: Uuid, h: nat)
    requires FleetRun(ws, ms) && n < |ws| && d in ws[n].dirs && h in ws[n].dirs[d].handles
    ensures Keyed(ws[n].dirs[d].handles[h].state)
  {
    FleetRunKeepsInv(ws, ms, n);
    assert VaultOk(d, ws[n].dirs[d], ws[n].frames, ws[n].issued);
  }

  /**
   On every such run, when an edit is through, the record in the handle's memory is live and has
   exactly the payload's values, with omitted fields and the clocks of unchanged fields kept.
   */
  lemma EditIsRead(ws: seq<World>, ms: seq<Move>, i: nat, j: nat, d: Uuid, h: nat, id: Uuid, values: map<string, Json>,
                   now: nat, entry: Uuid)
    requires CausalRun(ws, ms) && WritesAt(ws, ms, i, j, d, h, EditIntent(id, values), now, entry)
    requires d in ws[i].dirs && h in ws[i].dirs[d].handles && id in ws[i].dirs[d].handles[h].state
    ensures d in ws[j + 1].dirs && h in ws[j + 1].dirs[d].handles && id in ws[j + 1].dirs[d].handles[h].state
    ensures var before, after := ws[i].dirs[d].handles[h].state[id], ws[j + 1].dirs[d].handles[h].state[id];
            && Live(after) && after.kind == before.kind && after.shareId == before.shareId
            && after.fields.Keys == before.fields.Keys + values.Keys
            && (forall n | n in values :: after.fields[n].value == values[n])
            && (forall n | n in values && n in before.fields && before.fields[n].value == values[n] ::
                  after.fields[n] == before.fields[n])
            && (forall n | n in before.fields && n !in values :: after.fields[n] == before.fields[n])
  {
    WriteIsAtomic(ws, ms, i, j, d, h, EditIntent(id, values), now, entry);
    IssuedClockBeatsMemory(ws, ms, i, d, h, id);
    MemoryIsKeyed(ws, ms, i, d, h);
    EditReadsBack(ViewOf(ws[i].dirs[d], h), id, values, now, entry);
  }

  /** On every such run, when a removal is through, the record is not live in the handle's memory. */
  lemma RemovalIsRead(ws: seq<World>, ms: seq<Move>, i: nat, j: nat, d: Uuid, h: nat, id: Uuid, now: nat, entry: Uuid)
    requires CausalRun(ws, ms) && WritesAt(ws, ms, i, j, d, h, RemoveIntent(id), now, entry)
    requires d in ws[i].dirs && h in ws[i].dirs[d].handles && id in ws[i].dirs[d].handles[h].state
    ensures d in ws[j + 1].dirs && h in ws[j + 1].dirs[d].handles && id in ws[j + 1].dirs[d].handles[h].state
    ensures !Live(ws[j + 1].dirs[d].handles[h].state[id])
  {
    WriteIsAtomic(ws, ms, i, j, d, h, RemoveIntent(id), now, entry);
    IssuedClockBeatsMemory(ws, ms, i, d, h, id);
    MemoryIsKeyed(ws, ms, i, d, h);
    RemoveReadsBack(ViewOf(ws[i].dirs[d], h), id, now, entry);
  }
}
