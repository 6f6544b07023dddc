/**
  Bounded bypass without any record of it: counted over the steps of a run, a
  workload is granted a claim at most once while another one waits for it.
*/
module SlicerBypass {
  import opened Wrappers
  import opened TimeSlicer
  import opened SlicerSafety
  import opened SlicerTurns
  import Fairness = SlicerFairness

  predicate HasTurn(cfg: Config, w: World, x: Name)
  {
    cfg.claimOf(x) in w.m.running && w.m.running[cfg.claimOf(x)] == x
  }

  /** How often the workload is granted its claim. */
  function Turns(cfg: Config, w: World, ops: seq<Op>, x: Name): nat
    decreases |ops|
  {
    if ops == [] then 0
    else
      var next := Step(cfg, w, ops[0]);
      (if !HasTurn(cfg, w, x) && HasTurn(cfg, next, x) then 1 else 0) + Turns(cfg, next, ops[1..], x)
  }

  /** No turn of the workload ends by its leaving. */
  predicate NeverCutShort(cfg: Config, w: World, ops: seq<Op>, x: Name)
    decreases |ops|
  {
    ops == [] ||
    (!(HasTurn(cfg, w, x) && Leaves(w, ops[0], x)) && NeverCutShort(cfg, Step(cfg, w, ops[0]), ops[1..], x))
  }

  /** At its turn, or served since the other one was. */
  ghost predicate Served(cfg: Config, w: World, x: Name, n: Name)
  {
    HasTurn(cfg, w, x) || LastTurn(w.m, x) > LastTurn(w.m, n)
  }

  // ---------- who is granted a claim ----------

  lemma QuietStepsGrantNothing(cfg: Config, w: World, op: Op, x: Name)
    requires !op.DoResume? && !op.DoAcquire? && HasTurn(cfg, Step(cfg, w, op), x)
    ensures HasTurn(cfg, w, x)
  {
  }

  lemma ResumeGrantsTheNext(cfg: Config, w: World, name: Name, x: Name)
    requires Inv(cfg, w) && !HasTurn(cfg, w, x) && HasTurn(cfg, Step(cfg, w, DoResume(name)), x)
    ensures name == x && NextWaiter(cfg.policy, w.m, cfg.claimOf(x)) == Some(x)
  {
    ResumeCases(cfg, w, name);
  }

  lemma NextWasServedEarlier(cfg: Config, m: Monitor, x: Name, n: Name)
    requires cfg.policy.LeastRecentlyServed? && NextWaiter(cfg.policy, m, cfg.claimOf(x)) == Some(x)
    requires n in m.waiting && n in m.workloads && m.workloads[n].claim == cfg.claimOf(x)
    ensures LastTurn(m, x) <= LastTurn(m, n)
  {
    var i := NextWaiterMeans(cfg.policy, m, cfg.claimOf(x));
    var j :| 0 <= j < |m.waiting| && m.waiting[j] == n;
    assert WaitsOn(m, j, cfg.claimOf(x));
  }

  lemma TurnsGoToTheLeastServed(cfg: Config, w: World, op: Op, x: Name, n: Name)
    requires Inv(cfg, w) && cfg.policy.LeastRecentlyServed? && n in w.m.waiting && x != n && cfg.claimOf(x) == cfg.claimOf(n)
    requires !HasTurn(cfg, w, x) && HasTurn(cfg, Step(cfg, w, op), x)
    ensures !Served(cfg, w, x, n)
  {
    if op.DoResume? {
      ResumeGrantsTheNext(cfg, w, op.name, x);
      NextWasServedEarlier(cfg, w.m, x, n);
    } else if op.DoAcquire? {
      AcquireGrantsTheLeastServed(cfg, w, op.name, x, n);
    } else {
      QuietStepsGrantNothing(cfg, w, op, x);
    }
  }

  lemma AcquireGrantsTheLeastServed(cfg: Config, w: World, name: Name, x: Name, n: Name)
    requires Inv(cfg, w) && cfg.policy.LeastRecentlyServed? && n in w.m.waiting && x != n && cfg.claimOf(x) == cfg.claimOf(n)
    requires !HasTurn(cfg, w, x) && HasTurn(cfg, Step(cfg, w, DoAcquire(name)), x)
    ensures LastTurn(w.m, x) <= LastTurn(w.m, n)
  {
    if PhaseOf(w, name) == Idle && !Granted1(cfg, w, name) && (name in w.m.workloads ==> !w.m.workloads[name].failed) {
      var joined := Joined(cfg, w, name);
      JoiningKeeps(cfg, w, name);
      AcquireIsJoinThenResume(cfg, w, name);
      ResumeGrantsTheNext(cfg, joined, name, x);
      NextWasServedEarlier(cfg, joined.m, x, n);
    }
  }

  // ---------- being served lasts ----------

  lemma ServedStays(cfg: Config, w: World, op: Op, x: Name, n: Name, clock: nat)
    requires Inv(cfg, w) && n in w.m.waiting && x != n && Served(cfg, w, x, n)
    requires Fairness.Before(w, clock) && (Fairness.Records(w, op) ==> op.now > clock)
    requires !(HasTurn(cfg, w, x) && Leaves(w, op, x))
    ensures Served(cfg, Step(cfg, w, op), x, n)
  {
    Fairness.StepKeepsTimes(cfg, w, op);
    assert PhaseOf(w, n).Waiting?;
    assert Last(w.m.lastRelease, n) <= clock;
    if HasTurn(cfg, w, x) && !HasTurn(cfg, Step(cfg, w, op), x) {
      OthersKeepTheGrant(cfg, w, op, x);
      ParkedRecords(cfg, w, op, x);
    }
  }

  lemma ParkedRecords(cfg: Config, w: World, op: Op, x: Name)
    requires op.DoParked? && op.name == x && HasTurn(cfg, w, x) && !HasTurn(cfg, Step(cfg, w, op), x)
    ensures Fairness.Records(w, op)
  {
  }

  lemma {:induction false} NoTurnOnceServed(cfg: Config, w: World, ops: seq<Op>, x: Name, n: Name, clock: nat)
    requires Inv(cfg, w) && cfg.policy.LeastRecentlyServed? && x != n && cfg.claimOf(x) == cfg.claimOf(n)
    requires Fairness.Before(w, clock) && Fairness.Increasing(cfg, w, ops, clock)
    requires WaitsThroughout(cfg, w, ops, n) && NeverCutShort(cfg, w, ops, x) && Served(cfg, w, x, n)
    ensures Turns(cfg, w, ops, x) == 0
    decreases |ops|
  {
    if ops == [] {
    } else {
      if !HasTurn(cfg, w, x) && HasTurn(cfg, Step(cfg, w, ops[0]), x) {
        TurnsGoToTheLeastServed(cfg, w, ops[0], x, n);
      }
      ServedStays(cfg, w, ops[0], x, n, clock);
      StepKeepsInv(cfg, w, ops[0]);
      Fairness.StepStaysBefore(cfg, w, ops[0], clock);
      NoTurnOnceServed(cfg, Step(cfg, w, ops[0]), ops[1..], x, n, Fairness.After(w, ops[0], clock));
    }
  }

  lemma {:induction false} AtMostOneTurn(cfg: Config, w: World, ops: seq<Op>, x: Name, n: Name, clock: nat)
    requires Inv(cfg, w) && cfg.policy.LeastRecentlyServed? && x != n && cfg.claimOf(x) == cfg.claimOf(n)
    requires Fairness.Before(w, clock) && Fairness.Increasing(cfg, w, ops, clock)
    requires WaitsThroughout(cfg, w, ops, n) && NeverCutShort(cfg, w, ops, x)
    ensures Turns(cfg, w, ops, x) <= 1
    decreases |ops|
  {
    if ops == [] {
    } else {
      var next := Step(cfg, w, ops[0]);
      StepKeepsInv(cfg, w, ops[0]);
      Fairness.StepStaysBefore(cfg, w, ops[0], clock);
      if HasTurn(cfg, next, x) {
        NoTurnOnceServed(cfg, next, ops[1..], x, n, Fairness.After(w, ops[0], clock));
      } else {
        AtMostOneTurn(cfg, next, ops[1..], x, n, Fairness.After(w, ops[0], clock));
      }
    }
  }

  /**
    Least recently served, with increasing release times: while one workload
    waits for its claim, another one gets at most one turn on it, unless a turn
    of that one was cut short by its leaving.
  */
  lemma AtMostOneTurnWhileWaiting(cfg: Config, before: seq<Op>, ops: seq<Op>, x: Name, n: Name)
    requires cfg.policy.LeastRecentlyServed? && x != n && cfg.claimOf(x) == cfg.claimOf(n)
    requires Fairness.Increasing(cfg, START, before + ops, 0)
    requires var w := Run(cfg, START, before); WaitsThroughout(cfg, w, ops, n) && NeverCutShort(cfg, w, ops, x)
    ensures Turns(cfg, Run(cfg, START, before), ops, x) <= 1
  {
    EveryRunKeepsInv(cfg, START, before);
    var clock := TimesSoFar(cfg, START, before, ops, 0);
    AtMostOneTurn(cfg, Run(cfg, START, before), ops, x, n, clock);
  }

  lemma {:induction false} TimesSoFar(cfg: Config, w: World, before: seq<Op>, ops: seq<Op>, clock: nat) returns (now: nat)
    requires Fairness.Before(w, clock) && Fairness.Increasing(cfg, w, before + ops, clock)
    ensures Fairness.Before(Run(cfg, w, before), now) && Fairness.Increasing(cfg, Run(cfg, w, before), ops, now)
    decreases |before|
  {
    if before == [] {
      assert before + ops == ops;
      now := clock;
    } else {
      assert (before + ops)[0] == before[0] && (before + ops)[1..] == before[1..] + ops;
      Fairness.StepStaysBefore(cfg, w, before[0], clock);
      now := TimesSoFar(cfg, Step(cfg, w, before[0]), before[1..], ops, Fairness.After(w, before[0], clock));
    }
  }
}
