/**
 The traces of module Sync are runs of module Protocol: a round of the sync code, started in any
 reachable system, takes the system through reachable states, so every invariant of the runs
 holds of what the code leaves behind.
 */
module SyncRuns {
  import opened Records
  import opened RelaySpec
  import opened Protocol
  import opened ProtocolSteps
  import opened ProtocolCursors
  import opened ProtocolRuns
  import opened Sync

  /** The system's relay, and its device `d`, are as the trace shows them at this moment. */
  ghost predicate Matches(s: Sys, d: Uuid, p: At) {
    d in s.devs && s.devs[d] == p.dev && s.relay == p.relay
  }

  /** One step of a trace is one action of the system. */
  lemma TraceStepIsAction(s: Sys, d: Uuid, p: At, op: DevOp, q: At)
    requires Matches(s, d, p) && StepsTo(p, d, op, q)
    ensures Enabled(s, Act(d, op)) && Matches(Next(s, Act(d, op)), d, q)
    ensures forall e | e in s.devs && e != d ::
              e in Next(s, Act(d, op)).devs && Next(s, Act(d, op)).devs[e] == s.devs[e]
  {
    ActFrame(s, d, op);
  }

  lemma {:induction false} TraceReaches(ss: seq<Sys>, acts: seq<Action>, d: Uuid, tr: Trace, n: nat)
    returns (ss': seq<Sys>, acts': seq<Action>)
    requires Run(ss, acts) && IsTrace(tr, d) && n < |tr.states| && Matches(ss[|acts|], d, tr.states[0])
    ensures Run(ss', acts') && |acts'| == |acts| + n && ss <= ss' && acts <= acts'
    ensures Matches(ss'[|acts'|], d, tr.states[n])
    ensures forall k | 0 <= k < n :: acts'[|acts| + k] == Act(d, tr.ops[k])
  {
    if n == 0 {
      return ss, acts;
    }
    var ss1, acts1 := TraceReaches(ss, acts, d, tr, n - 1);
    var s, op := ss1[|acts1|], tr.ops[n - 1];
    assert StepsTo(tr.states[n - 1], d, op, tr.states[n - 1 + 1]);
    TraceStepIsAction(s, d, tr.states[n - 1], op, tr.states[n]);
    ss', acts' := ss1 + [Next(s, Act(d, op))], acts1 + [Act(d, op)];
    ExtendRun(ss1, acts1, Act(d, op));
  }

  /** The steps of a round interrupt nothing and grant nothing: the run stays careful of the device. */
  lemma RoundIsCareful(ss: seq<Sys>, acts: seq<Action>, ss': seq<Sys>, acts': seq<Action>, d: Uuid, tr: Trace)
    requires CarefulRun(ss, acts, d) && Run(ss', acts') && ss <= ss' && acts <= acts' && IsTrace(tr, d)
    requires |acts'| == |acts| + |tr.ops| && forall k | 0 <= k < |tr.ops| :: acts'[|acts| + k] == Act(d, tr.ops[k])
    ensures CarefulRun(ss', acts', d)
  {
    forall i: nat | i < |acts'| ensures Careful(ss'[i], acts'[i], d) {
      if i < |acts| {
        assert Careful(ss[i], acts[i], d);
      } else {
        assert acts'[|acts| + (i - |acts|)] == Act(d, tr.ops[i - |acts|]);
        assert StepsTo(tr.states[i - |acts|], d, tr.ops[i - |acts|], tr.states[i - |acts| + 1]);
      }
    }
  }

  /**
   A round of the sync code on a device of a reachable system, successful or failed at any point, ends
   in a reachable system. So if the run was careful of the device, each relay entry at or below the
   vault's cursor that the device is owed is in its log, but for shares that a failed round gained.
   */
  lemma RoundStaysComplete(ss: seq<Sys>, acts: seq<Action>, d: Uuid, tr: Trace, row: EntryRow)
    requires CarefulRun(ss, acts, d) && IsTrace(tr, d) && Matches(ss[|acts|], d, tr.states[0])
    requires var p := Last(tr);
             && row in p.relay.entries && row.seqno <= p.dev.dir.disk.meta.cursor
             && Owed(p.relay, d, p.dev, row) && Settled(p.dev.phase, row)
    ensures row.frame in Last(tr).dev.dir.disk.log
  {
    var ss', acts' := TraceReaches(ss, acts, d, tr, |tr.ops|);
    RoundIsCareful(ss, acts, ss', acts', d, tr);
    CursorIsComplete(ss', acts', |acts'|, d, Last(tr).dev.dir.disk.meta.cursor, row);
  }

  /** A failed round that gained nothing, or that ends while all cursors are zero, leaves a run that stays careful. */
  lemma FailedRoundIsSafe(ss: seq<Sys>, acts: seq<Action>, d: Uuid, tr: Trace)
    returns (ss': seq<Sys>, acts': seq<Action>)
    requires CarefulRun(ss, acts, d) && IsTrace(tr, d) && Matches(ss[|acts|], d, tr.states[0])
    requires var p := Last(tr).dev;
             !p.phase.Idle? && (GainedOf(p.phase) == {} || AllAtZero(p.dir))
    ensures CarefulRun(ss', acts', d) && ss <= ss' && acts <= acts'
    ensures Matches(ss'[|acts'|], d, At(Dev(Last(tr).dev.dir, Idle), Last(tr).relay))
  {
    var ss1, acts1 := TraceReaches(ss, acts, d, tr, |tr.ops|);
    RoundIsCareful(ss, acts, ss1, acts1, d, tr);
    var s := ss1[|acts1|];
    ActFrame(s, d, Abort);
    ss', acts' := ss1 + [Next(s, Act(d, Abort))], acts1 + [Act(d, Abort)];
    ExtendRun(ss1, acts1, Act(d, Abort));
    forall i: nat | i < |acts'| ensures Careful(ss'[i], acts'[i], d) {
      if i < |acts1| {
        assert Careful(ss1[i], acts1[i], d);
      }
    }
  }
}
