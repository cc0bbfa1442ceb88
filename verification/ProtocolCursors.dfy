/**
 Cursor completeness over every run: a relay entry at or below a device's cursor, in the
 default share or in a share the device holds and belongs to, is in the device's log, wherever
 a round stops. A share just gained is excepted until the round that gained it finishes.

 It needs H2 and H3 for the device in question, and nothing of the other devices.
 */
module ProtocolCursors {
  import opened Wrappers
  import opened Records
  import opened Keyrings
  import opened VaultSpec
  import opened VaultRuns
  import opened RelaySpec
  import opened Protocol
  import opened ProtocolSteps
  import opened ProtocolKeys
  import opened ProtocolWorld
  import opened ProtocolTags
  import opened ProtocolRights

  /** The device is owed the entry. */
  predicate Owed(r: Relay, d: Uuid, dev: Dev, row: EntryRow) {
    row.share == NIL || (row.share in dev.dir.disk.ring && (row.share, d) in r.members)
  }

  /** The entry is not of a share the round has just gained. */
  predicate Settled(p: Phase, row: EntryRow) {
    row.share == NIL || row.share !in GainedOf(p)
  }

  /** Every entry up to `c` that the device is owed is in its log, but for shares its round has just gained. */
  ghost predicate Complete(r: Relay, d: Uuid, dev: Dev, c: nat) {
    forall row | row in r.entries && row.seqno <= c && Owed(r, d, dev, row) && Settled(dev.phase, row) ::
      row.frame in dev.dir.disk.log
  }

  /** A cursor on disk or in some handle, stale ones included. */
  ghost predicate HasCursor(dir: Dir, c: nat) {
    c == dir.disk.meta.cursor || exists h :: h in dir.handles && dir.handles[h].meta.cursor == c
  }

  ghost predicate CursorsComplete(r: Relay, d: Uuid, dev: Dev) {
    forall c: nat | HasCursor(dev.dir, c) :: c <= Head(r) && Complete(r, d, dev, c)
  }

  /** Owed entries up to the head of a pull are in the log or still to be applied, and no cursor is past that head. */
  ghost predicate PullCovers(r: Relay, d: Uuid, dev: Dev) {
    dev.phase.Applying? ==>
      && dev.phase.head <= Head(r)
      && (forall c: nat | HasCursor(dev.dir, c) :: c <= dev.phase.head)
      && (forall row | row in r.entries && row.seqno <= dev.phase.head && Owed(r, d, dev, row) ::
            row.frame in dev.dir.disk.log || row.frame in dev.phase.rest)
  }

  /** The handle of a round that rewound pulls from the start, whatever cursor other handles carry. */
  ghost predicate PullsFromStart(dev: Dev) {
    dev.phase.Pushed? && dev.phase.rewound ==>
      dev.phase.h in dev.dir.handles && dev.dir.handles[dev.phase.h].meta.cursor == 0
  }

  ghost predicate DevCursors(r: Relay, d: Uuid, dev: Dev) {
    CursorsComplete(r, d, dev) && PullCovers(r, d, dev) && PullsFromStart(dev)
  }

  ghost predicate CursorsInv(s: Sys, d: Uuid) {
    d in s.devs ==> DevCursors(s.relay, d, s.devs[d])
  }

  /** What holds of every run, H2 and H3 or not. */
  ghost predicate Inv(s: Sys) {
    KeysInv(s) && WorldInv(s) && TagsInv(s) && RightsInv(s)
  }

  // ---- cursors and sections ----------------------------------------------------------

  /** A section leaves the cursors there were, sets the one it is told to, or resets to zero. */
  lemma TouchedCursors(dir: Dir, t: Touch, c: nat)
    requires TouchEnabled(dir, t) && HasCursor(Touching(dir, t), c)
    ensures HasCursor(dir, c) || c == 0 || (t.Touched? && t.op.SetCursor? && c == t.op.cursor)
  {
    if t.Touched? {
      LocalFrame(dir, t.h, t.op);
      var dir' := Touching(dir, t);
      assert HasCursor(dir, dir.disk.meta.cursor);
      if t.h in dir.handles {
        assert HasCursor(dir, dir.handles[t.h].meta.cursor);
      }
    }
  }

  /** Where the cursors of the next state come from. */
  lemma CursorSources(dev: Dev, r: Relay, d: Uuid, op: DevOp, c: nat)
    requires DevEnabled(dev, r, d, op) && HasCursor(DevNext(dev, r, d, op).dir, c)
    ensures HasCursor(dev.dir, c) || c == 0 || (op.Finish? && c == dev.phase.head)
  {
    DirStep(dev, r, d, op);
    TouchedCursors(dev.dir, TouchOf(dev, r, d, op), c);
  }

  lemma RoundKeepsStart(dev: Dev, r: Relay, d: Uuid, op: DevOp)
    requires DevEnabled(dev, r, d, op) && PullsFromStart(dev)
    ensures PullsFromStart(DevNext(dev, r, d, op))
  {
    DirStep(dev, r, d, op);
    var t := TouchOf(dev, r, d, op);
    if t.Touched? {
      LocalFrame(dev.dir, t.h, t.op);
    }
  }

  lemma HeadIsLast(r: Relay, row: EntryRow)
    requires TableOk(r) && row in r.entries
    ensures row.seqno <= Head(r)
  {
    var i :| 0 <= i < |r.entries| && r.entries[i] == row;
  }

  // ---- what a device is owed ---------------------------------------------------------------

  /** No entry is of a share that is only now created. */
  lemma RowShareMinted(s: Sys, row: EntryRow)
    requires Inv(s) && row in s.relay.entries
    ensures Minted(s, row.share) && row.share == row.frame.blob.key.share
  {
    assert FrameOwned(s, row.frame);
  }

  /** What an action needs of the system besides its own device. */
  ghost predicate Ready(s: Sys, d: Uuid, op: DevOp) {
    && d in s.devs && DevEnabled(s.devs[d], s.relay, d, op)
    && NIL in s.devs[d].dir.disk.ring
    && (op.CreateShare? ==> forall row | row in s.relay.entries :: row.share != op.share)
  }

  lemma ActIsReady(s: Sys, s': Sys, d: Uuid, op: DevOp)
    requires Inv(s) && Acted(s, s', d, op)
    ensures Ready(s, d, op)
  {
    assert DevKeys(s.devs[d]);
    if op.CreateShare? {
      forall row | row in s.relay.entries ensures row.share != op.share {
        RowShareMinted(s, row);
      }
    }
  }

  /** An action makes the device owed an entry that is there already only by gaining its share. */
  lemma ActOwes(dev: Dev, r: Relay, d: Uuid, op: DevOp, row: EntryRow)
    requires DevEnabled(dev, r, d, op) && NIL in dev.dir.disk.ring
    requires op.CreateShare? ==> row.share != op.share
    requires Owed(r, d, DevNext(dev, r, d, op), row)
    ensures Owed(r, d, dev, row) || (op.AbsorbNext? && !Settled(DevNext(dev, r, d, op).phase, row))
  {
    DirStep(dev, r, d, op);
    TouchedShare(dev, r, d, op);
    TouchedRing(dev.dir, TouchOf(dev, r, d, op));
  }

  /** Only finishing or interrupting a round ends the exception for what it gained. */
  lemma GainedStays(dev: Dev, r: Relay, d: Uuid, op: DevOp)
    requires DevEnabled(dev, r, d, op) && !op.Finish? && !op.Abort?
    ensures GainedOf(dev.phase) <= GainedOf(DevNext(dev, r, d, op).phase)
  {
  }

  lemma DevLogGrows(dev: Dev, r: Relay, d: Uuid, op: DevOp)
    requires DevEnabled(dev, r, d, op)
    ensures dev.dir.disk.log <= DevNext(dev, r, d, op).dir.disk.log
  {
    DirStep(dev, r, d, op);
    var t := TouchOf(dev, r, d, op);
    if t.Touched? {
      SectionBrings(dev.dir, t.h, t.op);
    }
  }

  lemma ActKeepsComplete(s: Sys, d: Uuid, op: DevOp, c: nat)
    requires Ready(s, d, op) && !op.Finish? && !op.Abort? && Complete(s.relay, d, s.devs[d], c)
    ensures Complete(s.relay, d, DevNext(s.devs[d], s.relay, d, op), c)
  {
    var dev, dev' := s.devs[d], DevNext(s.devs[d], s.relay, d, op);
    DevLogGrows(dev, s.relay, d, op);
    GainedStays(dev, s.relay, d, op);
    forall row | row in s.relay.entries && row.seqno <= c && Owed(s.relay, d, dev', row)
                 && Settled(dev'.phase, row)
      ensures row.frame in dev'.dir.disk.log
    {
      ActOwes(dev, s.relay, d, op, row);
    }
  }

  lemma CompleteAtZero(r: Relay, d: Uuid, dev: Dev)
    requires TableOk(r)
    ensures Complete(r, d, dev, 0)
  {
  }

  lemma ActKeepsCursors(s: Sys, d: Uuid, op: DevOp)
    requires Ready(s, d, op) && TableOk(s.relay) && DevCursors(s.relay, d, s.devs[d]) && !op.Finish? && !op.Abort?
    ensures CursorsComplete(s.relay, d, DevNext(s.devs[d], s.relay, d, op))
  {
    var dev, dev' := s.devs[d], DevNext(s.devs[d], s.relay, d, op);
    forall c: nat | HasCursor(dev'.dir, c) ensures c <= Head(s.relay) && Complete(s.relay, d, dev', c) {
      CursorSources(dev, s.relay, d, op, c);
      if HasCursor(dev.dir, c) {
        ActKeepsComplete(s, d, op, c);
      } else {
        CompleteAtZero(s.relay, d, dev');
      }
    }
  }

  // ---- the end of a round --------------------------------------------------------------------

  lemma FinishedPull(r: Relay, d: Uuid, dev: Dev, c: nat)
    requires dev.phase.Applying? && dev.phase.rest == [] && PullCovers(r, d, dev) && c <= dev.phase.head
    ensures forall row | row in r.entries && row.seqno <= c && Owed(r, d, dev, row) :: row.frame in dev.dir.disk.log
  {
  }

  /** A finished round settles what it gained: every cursor is at or below the head its pull covered. */
  lemma FinishCompletes(dev: Dev, r: Relay, d: Uuid)
    requires DevEnabled(dev, r, d, Finish) && PullCovers(r, d, dev)
    ensures CursorsComplete(r, d, DevNext(dev, r, d, Finish))
  {
    var dev' := DevNext(dev, r, d, Finish);
    forall c: nat | HasCursor(dev'.dir, c) ensures c <= Head(r) && Complete(r, d, dev', c) {
      CursorSources(dev, r, d, Finish, c);
      FinishedPull(r, d, dev, c);
    }
  }

  lemma ZeroCursors(dir: Dir, c: nat)
    requires AllAtZero(dir) && HasCursor(dir, c)
    ensures c == 0
  {
  }

  /** H2 at work: an interrupted round that gained nothing loses nothing, and at cursor zero nothing can be lost. */
  lemma AbortKeepsCursors(dev: Dev, r: Relay, d: Uuid)
    requires TableOk(r) && CursorsComplete(r, d, dev) && DevEnabled(dev, r, d, Abort)
    requires GainedOf(dev.phase) == {} || AllAtZero(dev.dir)
    ensures CursorsComplete(r, d, DevNext(dev, r, d, Abort))
  {
    var dev' := DevNext(dev, r, d, Abort);
    forall c: nat | HasCursor(dev'.dir, c) ensures c <= Head(r) && Complete(r, d, dev', c) {
      assert HasCursor(dev.dir, c) && Complete(r, d, dev, c);
      if GainedOf(dev.phase) != {} {
        ZeroCursors(dev.dir, c);
        CompleteAtZero(r, d, dev');
      }
    }
  }

  // ---- the pull ----------------------------------------------------------------------------

  lemma PulledRowInRest(r: Relay, d: Uuid, since: nat, row: EntryRow)
    requires row in r.entries && row.seqno > since && MayPull(r, d, row)
    ensures row.frame in FramesOf(PullRows(r, r.entries, d, since))
  {
    PullReturnsExactly(r, r.entries, d, since);
    var rows := PullRows(r, r.entries, d, since);
    var i :| 0 <= i < |rows| && rows[i] == row;
    assert FramesOf(rows)[i] == row.frame;
  }

  /** Owed entries up to the cursor a pull starts from are in the log: a round that gained a share starts from zero. */
  lemma BeforePull(r: Relay, d: Uuid, dev: Dev, row: EntryRow)
    requires TableOk(r) && DevCursors(r, d, dev) && DevEnabled(dev, r, d, PullPast)
    requires row in r.entries && Owed(r, d, dev, row) && row.seqno <= dev.dir.handles[dev.phase.h].meta.cursor
    ensures row.frame in dev.dir.disk.log
  {
    var since := dev.dir.handles[dev.phase.h].meta.cursor;
    assert HasCursor(dev.dir, since);
    assert Complete(r, d, dev, since);
  }

  /** What a pull returns covers every owed entry up to the head. */
  lemma PullStarts(dev: Dev, r: Relay, d: Uuid)
    requires TableOk(r) && DevCursors(r, d, dev) && DevEnabled(dev, r, d, PullPast)
    ensures PullCovers(r, d, DevNext(dev, r, d, PullPast))
  {
    var dev' := DevNext(dev, r, d, PullPast);
    var since := dev.dir.handles[dev.phase.h].meta.cursor;
    assert HasCursor(dev.dir, since);
    forall row | row in r.entries && Owed(r, d, dev', row)
      ensures row.frame in dev'.dir.disk.log || row.frame in dev'.phase.rest
    {
      assert Owed(r, d, dev, row);
      if row.seqno > since {
        PulledRowInRest(r, d, since, row);
      } else {
        BeforePull(r, d, dev, row);
      }
    }
    forall c: nat | HasCursor(dev'.dir, c) ensures c <= dev'.phase.head {
      assert HasCursor(dev.dir, c);
    }
  }

  /** An entry the round skips is in the log: an id names one frame. */
  lemma SkippedIsInLog(s: Sys, d: Uuid, f: Frame)
    requires WorldInv(s) && d in s.devs && s.devs[d].phase.Applying?
    requires f in s.devs[d].phase.rest && f.id in s.devs[d].phase.have
    ensures f in s.devs[d].dir.disk.log
  {
    var dev := s.devs[d];
    assert DevWorld(d, dev, s.world, s.issued);
    assert HasFrameId(dev.dir.disk.log, f.id);
    var i :| 0 <= i < |dev.dir.disk.log| && dev.dir.disk.log[i].id == f.id;
    assert dev.dir.disk.log[i] in dev.dir.disk.log;
  }

  lemma ApplyReaches(dev: Dev, r: Relay, d: Uuid)
    requires DevEnabled(dev, r, d, ApplyNext)
    requires dev.phase.rest[0].id in dev.phase.have ==> dev.phase.rest[0] in dev.dir.disk.log
    ensures dev.phase.rest[0] in DevNext(dev, r, d, ApplyNext).dir.disk.log
  {
    if dev.phase.rest[0].id !in dev.phase.have {
      SectionBrings(dev.dir, dev.phase.h, Apply(dev.phase.rest[0]));
    }
  }

  lemma CursorsBelowHead(dev: Dev, r: Relay, d: Uuid, op: DevOp)
    requires DevEnabled(dev, r, d, op) && PullCovers(r, d, dev) && dev.phase.Applying? && !op.Finish?
    ensures forall c: nat | HasCursor(DevNext(dev, r, d, op).dir, c) :: c <= dev.phase.head
  {
    forall c: nat | HasCursor(DevNext(dev, r, d, op).dir, c) ensures c <= dev.phase.head {
      CursorSources(dev, r, d, op, c);
    }
  }

  /** Applying one entry takes it from the pull only once it is in the log. */
  lemma ApplyGoesOn(dev: Dev, r: Relay, d: Uuid)
    requires DevEnabled(dev, r, d, ApplyNext) && NIL in dev.dir.disk.ring && PullCovers(r, d, dev)
    requires dev.phase.rest[0].id in dev.phase.have ==> dev.phase.rest[0] in dev.dir.disk.log
    ensures PullCovers(r, d, DevNext(dev, r, d, ApplyNext))
  {
    var dev' := DevNext(dev, r, d, ApplyNext);
    DevLogGrows(dev, r, d, ApplyNext);
    ApplyReaches(dev, r, d);
    CursorsBelowHead(dev, r, d, ApplyNext);
    forall row | row in r.entries && row.seqno <= dev'.phase.head && Owed(r, d, dev', row)
      ensures row.frame in dev'.dir.disk.log || row.frame in dev'.phase.rest
    {
      ActOwes(dev, r, d, ApplyNext, row);
    }
  }

  lemma SamePhase(dev: Dev, r: Relay, d: Uuid, op: DevOp)
    requires DevEnabled(dev, r, d, op) && !op.PullPast? && !op.ApplyNext?
    ensures DevNext(dev, r, d, op).phase.Applying? ==>
              DevNext(dev, r, d, op).phase == dev.phase && !op.Finish? && !op.AbsorbNext?
  {
  }

  /** Other actions leave the pull alone. */
  lemma PullGoesOn(s: Sys, d: Uuid, op: DevOp)
    requires Ready(s, d, op) && PullCovers(s.relay, d, s.devs[d]) && !op.PullPast? && !op.ApplyNext?
    ensures PullCovers(s.relay, d, DevNext(s.devs[d], s.relay, d, op))
  {
    var dev, dev' := s.devs[d], DevNext(s.devs[d], s.relay, d, op);
    SamePhase(dev, s.relay, d, op);
    DevLogGrows(dev, s.relay, d, op);
    if dev'.phase.Applying? {
      CursorsBelowHead(dev, s.relay, d, op);
      forall row | row in s.relay.entries && row.seqno <= dev'.phase.head && Owed(s.relay, d, dev', row)
        ensures row.frame in dev'.dir.disk.log || row.frame in dev'.phase.rest
      {
        ActOwes(dev, s.relay, d, op, row);
      }
    }
  }

  // ---- one device's action -------------------------------------------------------------------

  lemma ActKeepsPull(s: Sys, d: Uuid, op: DevOp)
    requires Ready(s, d, op) && WorldInv(s) && DevCursors(s.relay, d, s.devs[d])
    ensures PullCovers(s.relay, d, DevNext(s.devs[d], s.relay, d, op))
  {
    if op.PullPast? {
      PullStarts(s.devs[d], s.relay, d);
    } else if op.ApplyNext? {
      if s.devs[d].phase.rest[0].id in s.devs[d].phase.have {
        SkippedIsInLog(s, d, s.devs[d].phase.rest[0]);
      }
      ApplyGoesOn(s.devs[d], s.relay, d);
    } else {
      PullGoesOn(s, d, op);
    }
  }

  lemma ActKeepsDevCursors(s: Sys, d: Uuid, op: DevOp)
    requires Ready(s, d, op) && WorldInv(s) && DevCursors(s.relay, d, s.devs[d]) && EndsRoundSafely(s, Act(d, op), d)
    ensures DevCursors(s.relay, d, DevNext(s.devs[d], s.relay, d, op))
  {
    ActKeepsPull(s, d, op);
    RoundKeepsStart(s.devs[d], s.relay, d, op);
    if op.Finish? {
      FinishCompletes(s.devs[d], s.relay, d);
    } else if op.Abort? {
      AbortKeepsCursors(s.devs[d], s.relay, d);
    } else {
      ActKeepsCursors(s, d, op);
    }
  }

  /** Rows a push adds are past the head, and so past every cursor. */
  ghost predicate RowsPast(r: Relay, r': Relay) {
    && r'.members == r.members && Head(r) <= Head(r')
    && (forall row | row in r'.entries :: row in r.entries || row.seqno > Head(r))
  }

  lemma RowsPastKeepCursors(r: Relay, r': Relay, d: Uuid, dev: Dev)
    requires DevCursors(r, d, dev) && RowsPast(r, r')
    ensures DevCursors(r', d, dev)
  {
    assert forall row :: Owed(r, d, dev, row) == Owed(r', d, dev, row);
  }

  lemma PushIsPast(r: Relay, es: seq<TaggedFrame>)
    requires TableOk(r)
    ensures RowsPast(r, StoreAll(r, es))
  {
    StoreAllAppends(r, es);
    var r' := StoreAll(r, es);
    if r.entries != [] {
      var last := r.entries[|r.entries| - 1];
      assert r'.entries[|r.entries| - 1] == last;
      HeadIsLast(r', last);
    }
    forall row | row in r'.entries ensures row in r.entries || row.seqno > Head(r) {
      var i :| 0 <= i < |r'.entries| && r'.entries[i] == row;
      if i < |r.entries| {
        assert row == r.entries[i];
      } else {
        assert NewRow(r, row, es);
      }
    }
  }

  lemma ActIsPast(s: Sys, s': Sys, d: Uuid, op: DevOp)
    requires TableOk(s.relay) && Acted(s, s', d, op)
    ensures RowsPast(s.relay, s'.relay)
  {
    if op.PushLog? {
      PushIsPast(s.relay, s.devs[d].phase.local);
    }
  }

  lemma ActKeepsCursorsInv(s: Sys, s': Sys, e: Uuid, op: DevOp, d: Uuid)
    requires Inv(s) && CursorsInv(s, d) && Acted(s, s', e, op) && EndsRoundSafely(s, Act(e, op), d)
    ensures CursorsInv(s', d)
  {
    ActIsPast(s, s', e, op);
    ActedAlone(s, s', e, op);
    if d == e {
      ActIsReady(s, s', d, op);
      ActKeepsDevCursors(s, d, op);
    }
    if d in s'.devs {
      RowsPastKeepCursors(s.relay, s'.relay, d, s'.devs[d]);
    }
  }

  // ---- membership ---------------------------------------------------------------------------

  /** H3 at work: a grant owes its recipient no entry that is there already, or only the recipient's own. */
  lemma GrantOwes(s: Sys, a: Action, d: Uuid, row: EntryRow)
    requires Inv(s) && a.Request? && Enabled(s, a) && GrantsAnew(s, a, d)
    requires d in s.devs && row in s.relay.entries && Owed(Answer(s.relay, a.d, a.now, a.body), d, s.devs[d], row)
    ensures Owed(s.relay, d, s.devs[d], row) || row.frame in s.devs[d].dir.disk.log
  {
    if !Owed(s.relay, d, s.devs[d], row) {
      RequestMembers(s, a.d, a.now, a.body);
      var k := (row.share, d);
      assert k in Answer(s.relay, a.d, a.now, a.body).members && k !in s.relay.members;
      assert Holds(s, d, row.share) && row.share !in s.granted;
      assert DevRights(s, d, s.devs[d]);
      assert (row.share, d) !in s.belonged;
      RowShareMinted(s, row);
      assert FrameOwned(s, row.frame);
    }
  }

  /** A change of memberships that owes the device only what it has keeps its cursors complete. */
  lemma MembershipKeepsCursors(r: Relay, r': Relay, d: Uuid, dev: Dev)
    requires DevCursors(r, d, dev) && r'.entries == r.entries
    requires forall row | row in r.entries && Owed(r', d, dev, row) ::
              Owed(r, d, dev, row) || row.frame in dev.dir.disk.log
    ensures DevCursors(r', d, dev)
  {
    forall c: nat | HasCursor(dev.dir, c) ensures c <= Head(r') && Complete(r', d, dev, c) {
      assert Complete(r, d, dev, c);
    }
  }

  lemma RequestKeepsCursors(s: Sys, a: Action, d: Uuid)
    requires Inv(s) && a.Request? && Enabled(s, a) && GrantsAnew(s, a, d) && CursorsInv(s, d)
    ensures CursorsInv(Next(s, a), d)
  {
    if d in s.devs {
      var r' := Answer(s.relay, a.d, a.now, a.body);
      RequestEffect(s.relay, a.d, a.now, a.body);
      forall row | row in s.relay.entries && Owed(r', d, s.devs[d], row)
        ensures Owed(s.relay, d, s.devs[d], row) || row.frame in s.devs[d].dir.disk.log
      {
        GrantOwes(s, a, d, row);
      }
      MembershipKeepsCursors(s.relay, r', d, s.devs[d]);
    }
  }

  lemma RelayKeepsCursors(s: Sys, a: Action, d: Uuid)
    requires CursorsInv(s, d) && Enabled(s, a) && (a.Recovery? || a.Foreign?)
    ensures CursorsInv(Next(s, a), d)
  {
    if d in s.devs {
      RowsPastKeepCursors(s.relay, Next(s, a).relay, d, s.devs[d]);
    }
  }

  lemma JoinKeepsCursors(s: Sys, e: Uuid, list: seq<Key>, d: Uuid)
    requires TableOk(s.relay) && CursorsInv(s, d) && Enabled(s, Join(e, list))
    ensures CursorsInv(Next(s, Join(e, list)), d)
  {
    CompleteAtZero(s.relay, e, Dev(NewDir(e, list), Idle));
  }

  /** Every action keeps a device's cursors complete, if it is careful of the device. */
  lemma StepKeepsCursors(s: Sys, a: Action, d: Uuid)
    requires Inv(s) && CursorsInv(s, d) && Enabled(s, a) && Careful(s, a, d)
    ensures CursorsInv(Next(s, a), d)
  {
    match a
    case Join(e, list) => JoinKeepsCursors(s, e, list, d);
    case Act(e, op) =>
      ActFrame(s, e, op);
      ActKeepsCursorsInv(s, Next(s, a), e, op, d);
    case Request(_, _, _) => RequestKeepsCursors(s, a, d);
    case _ => RelayKeepsCursors(s, a, d);
  }

  // ---- what the hypotheses keep out ---------------------------------------------------------

  /** The relay entry is owed, is below the cursor, and is missing from the log. */
  ghost predicate Missed(r: Relay, d: Uuid, dev: Dev, row: EntryRow) {
    && row in r.entries && row.seqno <= dev.dir.disk.meta.cursor
    && Owed(r, d, dev, row) && row.frame !in dev.dir.disk.log
  }

  /**
   Without H1: an entry stored between the row query of a pull and its head query is not among the
   rows, yet the cursor is moved past it.
   */
  lemma SplitPullIsMissed(r: Relay, r': Relay, d: Uuid, since: nat, row: EntryRow)
    requires TableOk(r') && row in r'.entries && row !in r.entries
    ensures row !in PullRows(r, r.entries, d, since) && row.seqno <= MaxNat(Head(r'), since)
  {
    PullReturnsExactly(r, r.entries, d, since);
    var i :| 0 <= i < |r'.entries| && r'.entries[i] == row;
  }

  /**
   Without H2, an interruption before the rewind: a round that is stopped after it gained a share
   misses the share's earlier entries. The next heal does not gain the share again, and no pull from
   the cursor returns the entry.
   */
  lemma InterruptedGainIsMissed(r: Relay, d: Uuid, dev: Dev, row: EntryRow)
    requires DevEnabled(dev, r, d, Abort) && row.share in GainedOf(dev.phase)
    requires row in r.entries && Owed(r, d, dev, row) && row.frame !in dev.dir.disk.log
    requires row.share in dev.dir.disk.ring && row.seqno <= dev.dir.disk.meta.cursor
    ensures Missed(r, d, DevNext(dev, r, d, Abort), row)
    ensures row !in PullRows(r, r.entries, d, dev.dir.disk.meta.cursor)
    ensures forall again: Dev | InRound(again) && again.phase.Healing? && again.phase.todo != []
                                && again.dir.disk.ring == dev.dir.disk.ring && again.phase.todo[0].share == row.share ::
              AfterAbsorb(again).phase.gained == again.phase.gained
  {
    PullReturnsExactly(r, r.entries, d, dev.dir.disk.meta.cursor);
  }

  /**
   Without H2, an interruption after the rewind: another handle that still carries a cursor undoes the
   rewind with its next write, and when the round then stops, every owed entry up to that cursor which
   is not in the log is missed; no pull from the disk's cursor returns it.
   */
  lemma StaleCursorUndoesRewind(r: Relay, d: Uuid, dev: Dev, k: nat, i: Intent, now: nat, row: EntryRow)
    requires DevEnabled(dev, r, d, Rewind) && DevEnabled(DevNext(dev, r, d, Rewind), r, d, Local(k, Issue(i, now)))
    requires row in r.entries && Owed(r, d, dev, row) && row.frame !in dev.dir.disk.log
    requires row.seqno <= dev.dir.handles[k].meta.cursor
    ensures var rewound := DevNext(dev, r, d, Rewind);
            var stopped := DevNext(DevNext(rewound, r, d, Local(k, Issue(i, now))), r, d, Abort);
            && rewound.dir.disk.meta.cursor == 0
            && Missed(r, d, stopped, row)
            && row !in PullRows(r, r.entries, d, stopped.dir.disk.meta.cursor)
  {
    var rewound := DevNext(dev, r, d, Rewind);
    LocalFrame(dev.dir, dev.phase.h, ResetCursor);
    var stopped := DevNext(DevNext(rewound, r, d, Local(k, Issue(i, now))), r, d, Abort);
    PullReturnsExactly(r, r.entries, d, stopped.dir.disk.meta.cursor);
  }

  /**
   Without H3: granting a share again to a device that still holds it makes it miss what it was
   not sent meanwhile.
   */
  lemma RegrantIsMissed(r: Relay, d: Uuid, dev: Dev, row: EntryRow, ws: seq<WrappedFor>)
    requires row.share != NIL && row.share in dev.dir.disk.ring && (row.share, d) !in r.members
    requires row in r.entries && row.seqno <= dev.dir.disk.meta.cursor && row.frame !in dev.dir.disk.log
    requires exists i :: 0 <= i < |ws| && ws[i].device == d
    ensures !Missed(r, d, dev, row)
    ensures Missed(r.(members := WithMembers(r.members, row.share, ws)), d, dev, row)
  {
    WithMembersKeys(r.members, row.share, ws);
  }
}
