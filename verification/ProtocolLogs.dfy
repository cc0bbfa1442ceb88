/**
 An entry stands in a log at most once, although a round pulls entries that the device wrote
 itself, other handles append while the round runs, and an interrupted round pulls again what it
 has applied. What keeps a round from applying an entry twice is the set of ids it pushed: it
 rests on the companion fact that an entry which is not at the relay is in one log only.
 */
module ProtocolLogs {
  import opened Records
  import opened Keyrings
  import opened VaultSpec
  import opened VaultRuns
  import opened RelaySpec
  import opened Protocol
  import opened ProtocolSteps
  import opened ProtocolWorld
  import opened ProtocolTags
  import Runs = ProtocolRuns

  ghost predicate Distinct(fs: seq<Frame>) {
    forall i, j | 0 <= i < j < |fs| :: fs[i].id != fs[j].id
  }

  /** Until a round has pulled, what it will not skip is not at the relay; then, it is not in the log. */
  ghost predicate PhaseOnce(r: Relay, log: seq<Frame>, p: Phase) {
    && (p.Pushing? ==> forall f | f in log :: f.id in IdsOf(p.local) || !Stored(r, f.id))
    && (p.Pushed? ==> forall f | f in log :: f.id in p.have || !Stored(r, f.id))
    && (p.Applying? ==> Distinct(p.rest) && forall f | f in p.rest :: f.id in p.have || !HasFrameId(log, f.id))
  }

  ghost predicate DevOnce(r: Relay, dev: Dev) {
    Distinct(dev.dir.disk.log) && PhaseOnce(r, dev.dir.disk.log, dev.phase)
  }

  /** What two logs share is at the relay. */
  ghost predicate SharedIsStored(r: Relay, log: seq<Frame>, other: seq<Frame>) {
    forall f | f in log && HasFrameId(other, f.id) :: Stored(r, f.id)
  }

  ghost predicate OnceInv(s: Sys) {
    && (forall d | d in s.devs :: DevOnce(s.relay, s.devs[d]))
    && (forall d, e | d in s.devs && e in s.devs && d != e ::
          SharedIsStored(s.relay, s.devs[d].dir.disk.log, s.devs[e].dir.disk.log))
  }

  // ---- what one action does to the log ------------------------------------------------------

  /** The frames an action adds to its device's log. */
  function Brought(dev: Dev, r: Relay, d: Uuid, op: DevOp): seq<Frame>
    requires DevEnabled(dev, r, d, op)
  {
    if op.Local? && op.op.Append? then [SealedFrame(dev.dir.handles[op.hd], op.op.entry)]
    else if op.ApplyNext? && dev.phase.rest[0].id !in dev.phase.have then [dev.phase.rest[0]] else []
  }

  lemma LogIsExtended(dev: Dev, r: Relay, d: Uuid, op: DevOp)
    requires DevEnabled(dev, r, d, op)
    ensures DevNext(dev, r, d, op).dir.disk.log == dev.dir.disk.log + Brought(dev, r, d, op)
  {
    DirStep(dev, r, d, op);
    var t := TouchOf(dev, r, d, op);
    if t.Touched? {
      SectionBrings(dev.dir, t.h, t.op);
    }
  }

  /** No frame sealed so far has the id. */
  ghost predicate Fresh(world: set<Frame>, id: Uuid) {
    forall f | f in world :: f.id != id
  }

  lemma FreshIsNew(world: set<Frame>, id: Uuid, r: Relay, log: seq<Frame>)
    requires Fresh(world, id) && RowsKnown(r, world) && forall f | f in log :: f in world
    ensures !Stored(r, id) && !HasFrameId(log, id)
  {
    forall i | 0 <= i < |r.entries| ensures r.entries[i].frame.id != id {
      assert r.entries[i] in r.entries;
    }
  }

  lemma HasIdOfMember(log: seq<Frame>, f: Frame)
    requires f in log
    ensures HasFrameId(log, f.id)
  {
    var i :| 0 <= i < |log| && log[i] == f;
  }

  lemma HasIdOfMore(log: seq<Frame>, f: Frame, id: Uuid)
    ensures HasFrameId(log + [f], id) <==> HasFrameId(log, id) || f.id == id
  {
    if i :| 0 <= i < |log| && log[i].id == id {
      assert (log + [f])[i].id == id;
    }
    assert (log + [f])[|log|] == f;
  }

  // ---- one device -----------------------------------------------------------------------------

  lemma AppendKeepsOnce(r: Relay, log: seq<Frame>, p: Phase, f: Frame, world: set<Frame>)
    requires Distinct(log) && PhaseOnce(r, log, p) && Fresh(world, f.id)
    requires RowsKnown(r, world) && PhaseWorld(log, p, world) && forall g | g in log :: g in world
    ensures Distinct(log + [f]) && PhaseOnce(r, log + [f], p)
  {
    FreshIsNew(world, f.id, r, log);
    if p.Applying? {
      forall g | g in p.rest ensures g.id in p.have || !HasFrameId(log + [f], g.id) {
        HasIdOfMore(log, f, g.id);
      }
    }
  }

  lemma ApplyKeepsOnce(log: seq<Frame>, have: set<Uuid>, rest: seq<Frame>)
    requires rest != [] && Distinct(log) && Distinct(rest)
    requires forall f | f in rest :: f.id in have || !HasFrameId(log, f.id)
    ensures var log' := if rest[0].id in have then log else log + [rest[0]];
            && Distinct(log') && Distinct(rest[1..])
            && forall f | f in rest[1..] :: f.id in have || !HasFrameId(log', f.id)
  {
    assert rest[0] in rest;
    assert Distinct(rest[1..]);
    forall f | f in rest[1..] && f.id !in have
      ensures !HasFrameId(if rest[0].id in have then log else log + [rest[0]], f.id)
    {
      assert f in rest && f.id != rest[0].id;
      HasIdOfMore(log, rest[0], f.id);
    }
  }

  lemma ReadLogListsAll(ring: Ring, log: seq<Frame>)
    ensures forall f | f in log :: f.id in IdsOf(TaggedLog(ring, log))
  {
    forall f | f in log ensures f.id in IdsOf(TaggedLog(ring, log)) {
      var i :| 0 <= i < |log| && log[i] == f;
      assert TaggedLog(ring, log)[i] in TaggedLog(ring, log);
    }
  }

  /** A push stores no id that it does not send. */
  lemma PushStoresSent(r: Relay, es: seq<TaggedFrame>, id: Uuid)
    requires TableOk(r) && Stored(StoreAll(r, es), id)
    ensures Stored(r, id) || id in IdsOf(es)
  {
    StoreAllAppends(r, es);
    var r' := StoreAll(r, es);
    var i :| 0 <= i < |r'.entries| && r'.entries[i].frame.id == id;
    if i < |r.entries| {
      assert r.entries[i] == r'.entries[i];
    } else {
      assert NewRow(r, r'.entries[i], es);
    }
  }

  lemma PullIsDistinct(r: Relay, d: Uuid, since: nat)
    requires TableOk(r)
    ensures var fs := FramesOf(PullRows(r, r.entries, d, since));
            Distinct(fs) && forall f | f in fs :: Stored(r, f.id)
  {
    var rows := PullRows(r, r.entries, d, since);
    PullReturnsExactly(r, r.entries, d, since);
    forall i, j | 0 <= i < j < |rows| ensures rows[i].frame.id != rows[j].frame.id {
      assert rows[i] in r.entries && rows[j] in r.entries;
      var a :| 0 <= a < |r.entries| && r.entries[a] == rows[i];
      var b :| 0 <= b < |r.entries| && r.entries[b] == rows[j];
      assert a != b;
    }
    forall f | f in FramesOf(rows) ensures Stored(r, f.id) {
      PulledFramesAreRows(r, d, since, f);
      var row :| row in r.entries && row.frame == f;
      var i :| 0 <= i < |r.entries| && r.entries[i] == row;
    }
  }

  lemma PullKeepsOnce(r: Relay, log: seq<Frame>, have: set<Uuid>, d: Uuid, since: nat)
    requires TableOk(r) && forall f | f in log :: f.id in have || !Stored(r, f.id)
    ensures var rest := FramesOf(PullRows(r, r.entries, d, since));
            Distinct(rest) && forall f | f in rest :: f.id in have || !HasFrameId(log, f.id)
  {
    PullIsDistinct(r, d, since);
    var rest := FramesOf(PullRows(r, r.entries, d, since));
    forall f | f in rest && HasFrameId(log, f.id) ensures f.id in have {
      var i :| 0 <= i < |log| && log[i].id == f.id;
      assert log[i] in log;
    }
  }

  /** The device's own action keeps its log free of repeats, told by the tables as they are after it. */
  lemma OwnActKeepsOnce(s: Sys, d: Uuid, op: DevOp, r': Relay)
    requires d in s.devs && DevEnabled(s.devs[d], s.relay, d, op) && FreshAndChained(s, d, op)
    requires r' == if op.PushLog? then StoreAll(s.relay, s.devs[d].phase.local) else s.relay
    requires TableOk(s.relay) && RowsKnown(s.relay, s.world) && DevOnce(s.relay, s.devs[d])
    requires PhaseWorld(s.devs[d].dir.disk.log, s.devs[d].phase, s.world)
    requires forall f | f in s.devs[d].dir.disk.log :: f in s.world
    ensures DevOnce(r', DevNext(s.devs[d], s.relay, d, op))
  {
    var dev := s.devs[d];
    var log, p := dev.dir.disk.log, dev.phase;
    LogIsExtended(dev, s.relay, d, op);
    match op
    case Local(hd, lop) =>
      if lop.Append? {
        AppendKeepsOnce(s.relay, log, p, SealedFrame(dev.dir.handles[hd], lop.entry), s.world);
      }
    case ReadLog => ReadLogListsAll(dev.dir.disk.ring, log);
    case PushLog =>
      forall f | f in log ensures f.id in IdsOf(p.local) || !Stored(r', f.id) {
        if Stored(r', f.id) {
          PushStoresSent(s.relay, p.local, f.id);
        }
      }
    case PullPast => PullKeepsOnce(s.relay, log, p.have, d, dev.dir.handles[p.h].meta.cursor);
    case ApplyNext => ApplyKeepsOnce(log, p.have, p.rest);
    case _ =>
  }

  // ---- the other devices ------------------------------------------------------------------------

  /** A push of another device stores nothing that only this one has. */
  lemma OtherStaysOnce(r: Relay, dev: Dev, local: seq<TaggedFrame>, other: seq<Frame>)
    requires TableOk(r) && DevOnce(r, dev) && SharedIsStored(r, dev.dir.disk.log, other)
    requires forall t | t in local :: t.frame in other
    ensures DevOnce(StoreAll(r, local), dev)
  {
    var r' := StoreAll(r, local);
    forall f | f in dev.dir.disk.log && Stored(r', f.id) ensures Stored(r, f.id) {
      PushStoresSent(r, local, f.id);
      if f.id in IdsOf(local) {
        var t :| t in local && t.frame.id == f.id;
        HasIdOfMember(other, t.frame);
      }
    }
  }

  lemma SharedStaysStored(r: Relay, r': Relay, log: seq<Frame>, other: seq<Frame>)
    requires SharedIsStored(r, log, other) && r.entries <= r'.entries
    ensures SharedIsStored(r', log, other)
  {
    StoredStays(r, r');
  }

  /** What comes into a log is new to every log, or comes from the relay. */
  lemma BroughtIsStored(r: Relay, log: seq<Frame>, more: seq<Frame>, other: seq<Frame>, world: set<Frame>)
    requires SharedIsStored(r, log, other) && SharedIsStored(r, other, log) && RowsKnown(r, world)
    requires forall f | f in other :: f in world
    requires |more| <= 1 && forall f | f in more :: Fresh(world, f.id) || Stored(r, f.id)
    ensures SharedIsStored(r, log + more, other) && SharedIsStored(r, other, log + more)
  {
    if more == [] {
      assert log + more == log;
    } else {
      var f := more[0];
      assert more == [f] && f in more;
      if Fresh(world, f.id) {
        FreshIsNew(world, f.id, r, other);
      }
      forall g | g in other && HasFrameId(log + more, g.id) ensures Stored(r, g.id) {
        HasIdOfMore(log, f, g.id);
        HasIdOfMember(other, g);
      }
    }
  }

  lemma ActBringsStored(s: Sys, d: Uuid, op: DevOp)
    requires d in s.devs && DevEnabled(s.devs[d], s.relay, d, op) && FreshAndChained(s, d, op)
    requires PhaseTags(s.relay, s.devs[d].phase)
    ensures var more := Brought(s.devs[d], s.relay, d, op);
            |more| <= 1 && forall f | f in more :: Fresh(s.world, f.id) || Stored(s.relay, f.id)
  {
    if op.ApplyNext? {
      assert s.devs[d].phase.rest[0] in s.devs[d].phase.rest;
    }
  }

  // ---- the system ---------------------------------------------------------------------------------

  lemma LogIsKnown(s: Sys, d: Uuid)
    requires WorldInv(s) && d in s.devs
    ensures forall f | f in s.devs[d].dir.disk.log :: f in s.world
    ensures PhaseWorld(s.devs[d].dir.disk.log, s.devs[d].phase, s.world)
  {
    assert DevWorld(d, s.devs[d], s.world, s.issued);
  }

  lemma ActKeepsDevsOnce(s: Sys, s': Sys, d: Uuid, op: DevOp)
    requires WorldInv(s) && OnceInv(s) && Acted(s, s', d, op)
    ensures forall e | e in s'.devs :: DevOnce(s'.relay, s'.devs[e])
  {
    LogIsKnown(s, d);
    assert DevOnce(s.relay, s.devs[d]);
    OwnActKeepsOnce(s, d, op, s'.relay);
    forall e | e in s'.devs && e != d ensures DevOnce(s'.relay, s'.devs[e]) {
      assert DevOnce(s.relay, s.devs[e]);
      if op.PushLog? {
        assert SharedIsStored(s.relay, s.devs[e].dir.disk.log, s.devs[d].dir.disk.log);
        OtherStaysOnce(s.relay, s.devs[e], s.devs[d].phase.local, s.devs[d].dir.disk.log);
      }
    }
  }

  /** The acting device's log and another one share only what is at the relay. */
  lemma ActorSharesStored(s: Sys, d: Uuid, op: DevOp, log': seq<Frame>, e: Uuid)
    requires WorldInv(s) && TagsInv(s) && OnceInv(s) && d in s.devs && e in s.devs && d != e
    requires DevEnabled(s.devs[d], s.relay, d, op) && FreshAndChained(s, d, op)
    requires log' == s.devs[d].dir.disk.log + Brought(s.devs[d], s.relay, d, op)
    ensures SharedIsStored(s.relay, log', s.devs[e].dir.disk.log)
    ensures SharedIsStored(s.relay, s.devs[e].dir.disk.log, log')
  {
    assert DevTags(s.relay, s.devs[d]);
    ActBringsStored(s, d, op);
    LogIsKnown(s, e);
    var log, other := s.devs[d].dir.disk.log, s.devs[e].dir.disk.log;
    assert SharedIsStored(s.relay, log, other) && SharedIsStored(s.relay, other, log);
    BroughtIsStored(s.relay, log, Brought(s.devs[d], s.relay, d, op), other, s.world);
  }

  lemma LogsKeepShared(s: Sys, s': Sys, d: Uuid, op: DevOp)
    requires WorldInv(s) && TagsInv(s) && OnceInv(s)
    requires d in s.devs && DevEnabled(s.devs[d], s.relay, d, op) && FreshAndChained(s, d, op)
    requires OnlyDevice(s, s', d) && s.relay.entries <= s'.relay.entries
    requires s'.devs[d].dir.disk.log == s.devs[d].dir.disk.log + Brought(s.devs[d], s.relay, d, op)
    ensures forall a, b | a in s'.devs && b in s'.devs && a != b ::
              SharedIsStored(s'.relay, s'.devs[a].dir.disk.log, s'.devs[b].dir.disk.log)
  {
    forall a, b | a in s'.devs && b in s'.devs && a != b
      ensures SharedIsStored(s'.relay, s'.devs[a].dir.disk.log, s'.devs[b].dir.disk.log)
    {
      var log, other := s'.devs[a].dir.disk.log, s'.devs[b].dir.disk.log;
      if a == d {
        ActorSharesStored(s, d, op, log, b);
      } else if b == d {
        ActorSharesStored(s, d, op, other, a);
      }
      SharedStaysStored(s.relay, s'.relay, log, other);
    }
  }

  lemma ActKeepsOnce(s: Sys, s': Sys, d: Uuid, op: DevOp)
    requires WorldInv(s) && TagsInv(s) && OnceInv(s) && Acted(s, s', d, op)
    ensures OnceInv(s')
  {
    ActKeepsDevsOnce(s, s', d, op);
    ActKeepsRows(s, s', d, op);
    ActedAlone(s, s', d, op);
    LogIsExtended(s.devs[d], s.relay, d, op);
    LogsKeepShared(s, s', d, op);
  }

  lemma SameLogsStayOnce(s: Sys, s': Sys)
    requires OnceInv(s) && s'.devs == s.devs && s'.relay.entries == s.relay.entries
    ensures OnceInv(s')
  {
    forall d | d in s'.devs ensures DevOnce(s'.relay, s'.devs[d]) {
      assert DevOnce(s.relay, s.devs[d]);
      assert forall id :: Stored(s'.relay, id) <==> Stored(s.relay, id);
    }
    forall d, e | d in s'.devs && e in s'.devs && d != e
      ensures SharedIsStored(s'.relay, s'.devs[d].dir.disk.log, s'.devs[e].dir.disk.log)
    {
      SharedStaysStored(s.relay, s'.relay, s.devs[d].dir.disk.log, s.devs[e].dir.disk.log);
    }
  }

  lemma JoinKeepsOnce(s: Sys, d: Uuid, list: seq<Key>)
    requires OnceInv(s) && Enabled(s, Join(d, list))
    ensures OnceInv(Next(s, Join(d, list)))
  {
    var s' := Next(s, Join(d, list));
    assert s'.devs[d].dir.disk.log == [];
    forall e | e in s.devs ensures DevOnce(s'.relay, s'.devs[e]) {
      assert DevOnce(s.relay, s.devs[e]);
    }
  }

  /** Every action keeps every log free of repeats, and unsent entries in one log. */
  lemma StepKeepsOnce(s: Sys, a: Action)
    requires WorldInv(s) && TagsInv(s) && OnceInv(s) && Enabled(s, a)
    ensures OnceInv(Next(s, a))
  {
    match a
    case Join(d, list) => JoinKeepsOnce(s, d, list);
    case Act(d, op) =>
      ActFrame(s, d, op);
      ActKeepsOnce(s, Next(s, a), d, op);
    case _ =>
      RelayFrame(s, a);
      SameLogsStayOnce(s, Next(s, a));
  }

  lemma {:induction false} RunKeepsOnce(ss: seq<Sys>, acts: seq<Action>, n: nat)
    requires Runs.Run(ss, acts) && n < |ss|
    ensures OnceInv(ss[n])
  {
    if n > 0 {
      RunKeepsOnce(ss, acts, n - 1);
      Runs.RunKeepsInv(ss, acts, n - 1);
      assert Runs.StepAt(ss, acts, n - 1);
      StepKeepsOnce(ss[n - 1], acts[n - 1]);
    }
  }

  /**
   In every state of every run no log holds two frames with one id, and a frame that two devices have
   in their logs is at the relay.
   */
  lemma EntriesStandOnce(ss: seq<Sys>, acts: seq<Action>, n: nat, d: Uuid)
    requires Runs.Run(ss, acts) && n < |ss| && d in ss[n].devs
    ensures var log := ss[n].devs[d].dir.disk.log;
            && (forall i, j | 0 <= i < j < |log| :: log[i].id != log[j].id)
            && (forall e, f | e in ss[n].devs && e != d && f in log && f in ss[n].devs[e].dir.disk.log ::
                  Stored(ss[n].relay, f.id))
  {
    RunKeepsOnce(ss, acts, n);
    var s := ss[n];
    assert DevOnce(s.relay, s.devs[d]);
    forall e, f | e in s.devs && e != d && f in s.devs[d].dir.disk.log && f in s.devs[e].dir.disk.log
      ensures Stored(s.relay, f.id)
    {
      assert SharedIsStored(s.relay, s.devs[d].dir.disk.log, s.devs[e].dir.disk.log);
      HasIdOfMember(s.devs[e].dir.disk.log, f);
    }
  }
}
