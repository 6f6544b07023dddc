/**
  Least recently served is fair: while a workload waits, nobody completes a turn
  on its claim and is granted that claim again before it.
*/
module SlicerFairness {
  import opened Wrappers
  import opened TimeSlicer
  import Safety = SlicerSafety

  ghost predicate Overtook(cfg: Config, w: World, n: Name, x: Name)
  {
    && x != n && cfg.claimOf(x) == cfg.claimOf(n)
    && (Holds(w.m, x, cfg.claimOf(x)) || Last(w.m.lastRelease, x) > Last(w.m.lastRelease, n))
  }

  /** Each overtaker is still at its turn or was served after the waiter was. */
  ghost predicate OvertakenOnce(cfg: Config, w: World, n: Name)
  {
    n in w.overtakers && NoDup(w.overtakers[n]) && forall x :: x in w.overtakers[n] ==> Overtook(cfg, w, n, x)
  }

  ghost predicate AllOvertakenOnce(cfg: Config, w: World)
  {
    forall n :: n in w.m.waiting ==> OvertakenOnce(cfg, w, n)
  }

  ghost predicate Inv(cfg: Config, w: World)
  {
    Safety.Inv(cfg, w) && AllOvertakenOnce(cfg, w)
  }

  /** No release has been recorded after this time. */
  ghost predicate Before(w: World, clock: nat)
  {
    forall n :: Last(w.m.lastRelease, n) <= clock
  }

  // ---------- the clock ----------

  /** The operation completes a release, and so records the time it read. */
  predicate Records(w: World, op: Op)
  {
    op.DoParked? && PhaseOf(w, op.name) == Parking && !op.outcome.Failed? && op.outcome != Saved([])
  }

  function After(w: World, op: Op, clock: nat): nat
  {
    if Records(w, op) then op.now else clock
  }

  /** Each completed release reads a later time than the one before it. */
  predicate Increasing(cfg: Config, w: World, ops: seq<Op>, clock: nat)
    decreases |ops|
  {
    ops == [] ||
    ((Records(w, ops[0]) ==> ops[0].now > clock) &&
     Increasing(cfg, Step(cfg, w, ops[0]), ops[1..], After(w, ops[0], clock)))
  }

  /** Whoever is next for a free claim has not been served since anyone in line began to wait. */
  lemma NextHasNotOvertaken(cfg: Config, w: World, n: Name, waiter: Name)
    requires Inv(cfg, w) && cfg.policy.LeastRecentlyServed?
    requires waiter in w.m.waiting && cfg.claimOf(waiter) == cfg.claimOf(n) && cfg.claimOf(n) !in w.m.running
    requires NextWaiter(cfg.policy, w.m, cfg.claimOf(n)) == Some(n)
    ensures waiter in w.overtakers && n !in w.overtakers[waiter]
  {
    Safety.WaitersContents(w.m.workloads, w.m.waiting, cfg.claimOf(n));
    var line := WaitersOn(w.m.workloads, w.m.waiting, cfg.claimOf(n));
    assert waiter in line && n in line;
    assert OvertakenOnce(cfg, w, waiter);
    assert n in w.overtakers[waiter] ==> Overtook(cfg, w, waiter, n);
  }

  lemma GrantStaysFair(cfg: Config, w: World, n: Name)
    requires Inv(cfg, w) && cfg.policy.LeastRecentlyServed?
    requires Safety.MayGrant(cfg, w, n) && NextWaiter(cfg.policy, w.m, cfg.claimOf(n)) == Some(n)
    ensures AllOvertakenOnce(cfg, Safety.GrantOf(cfg, w, n))
  {
    var next := Safety.GrantOf(cfg, w, n);
    Safety.RemoveContents(w.m.waiting, n);
    forall waiter | waiter in next.m.waiting ensures OvertakenOnce(cfg, next, waiter) {
      assert OvertakenOnce(cfg, w, waiter);
      if cfg.claimOf(waiter) == cfg.claimOf(n) {
        NextHasNotOvertaken(cfg, w, n, waiter);
      }
      forall x | x in next.overtakers[waiter] ensures Overtook(cfg, next, waiter, x) {
        assert x == n || Overtook(cfg, w, waiter, x);
      }
    }
  }

  lemma ResumeStaysFair(cfg: Config, w: World, n: Name)
    requires Inv(cfg, w) && cfg.policy.LeastRecentlyServed?
    ensures AllOvertakenOnce(cfg, Step(cfg, w, DoResume(n)))
  {
    Safety.RemoveContents(w.m.waiting, n);
    if PhaseOf(w, n) == Waiting(true) && n in w.m.waiting && cfg.claimOf(n) !in w.m.running &&
       NextWaiter(cfg.policy, w.m, cfg.claimOf(n)) == Some(n) {
      GrantStaysFair(cfg, w, n);
      assert Step(cfg, w, DoResume(n)) == Safety.GrantOf(cfg, w, n);
    } else {
      StaysFair(cfg, w, Step(cfg, w, DoResume(n)));
    }
  }

  /** Steps that add nobody to the line, serve nobody and end no grant. */
  lemma StaysFair(cfg: Config, w: World, next: World)
    requires Inv(cfg, w)
    requires next.m.lastRelease == w.m.lastRelease && next.overtakers == w.overtakers
    requires forall n :: n in next.m.waiting ==> n in w.m.waiting
    requires forall c :: c in w.m.running ==> c in next.m.running && next.m.running[c] == w.m.running[c]
    ensures AllOvertakenOnce(cfg, next)
  {
    forall n | n in next.m.waiting ensures OvertakenOnce(cfg, next, n) {
      assert OvertakenOnce(cfg, w, n);
      forall x | x in next.overtakers[n] ensures Overtook(cfg, next, n, x) {
        assert Overtook(cfg, w, n, x);
      }
    }
  }

  lemma AcquireStaysFair(cfg: Config, w: World, n: Name)
    requires Inv(cfg, w) && cfg.policy.LeastRecentlyServed?
    ensures AllOvertakenOnce(cfg, Step(cfg, w, DoAcquire(n)))
  {
    if PhaseOf(w, n) == Idle && !Safety.Granted1(cfg, w, n) && (n in w.m.workloads ==> !w.m.workloads[n].failed) {
      var joined := Safety.Joined(cfg, w, n);
      Safety.JoiningKeeps(cfg, w, n);
      forall x | x in joined.m.waiting ensures OvertakenOnce(cfg, joined, x) {
        if x != n {
          assert OvertakenOnce(cfg, w, x);
          forall y | y in joined.overtakers[x] ensures Overtook(cfg, joined, x, y) {
            assert Overtook(cfg, w, x, y);
          }
        }
      }
      ResumeStaysFair(cfg, joined, n);
      Safety.AcquireIsJoinThenResume(cfg, w, n);
    } else {
      StaysFair(cfg, w, Step(cfg, w, DoAcquire(n)));
    }
  }

  /** A completed release puts its workload behind everyone already in line. */
  lemma ServedStaysFair(cfg: Config, w: World, next: World, n: Name, now: nat, clock: nat)
    requires Inv(cfg, w) && Before(w, clock) && now > clock
    requires next.m.lastRelease == w.m.lastRelease[n := now] && next.overtakers == w.overtakers
    requires forall x :: x in next.m.waiting ==> x in w.m.waiting && x != n
    requires forall c :: c in w.m.running && w.m.running[c] != n ==> c in next.m.running && next.m.running[c] == w.m.running[c]
    ensures AllOvertakenOnce(cfg, next)
  {
    assert forall x :: Last(next.m.lastRelease, x) == if x == n then now else Last(w.m.lastRelease, x);
    forall x | x in next.m.waiting ensures OvertakenOnce(cfg, next, x) {
      assert OvertakenOnce(cfg, w, x);
      forall y | y in next.overtakers[x] ensures Overtook(cfg, next, x, y) {
        assert Overtook(cfg, w, x, y);
      }
    }
  }

  /** Holders whose grants end abruptly are struck off. */
  lemma GoneStaysFair(cfg: Config, w: World, next: World, gone: set<Name>)
    requires Inv(cfg, w)
    requires next.m.lastRelease == w.m.lastRelease && next.overtakers == Strike(w.overtakers, Holders(cfg, w.m, gone))
    requires forall n :: n in next.m.waiting ==> n in w.m.waiting
    requires forall c :: c in w.m.running && w.m.running[c] !in gone ==> c in next.m.running && next.m.running[c] == w.m.running[c]
    ensures AllOvertakenOnce(cfg, next)
  {
    forall n | n in next.m.waiting ensures OvertakenOnce(cfg, next, n) {
      assert OvertakenOnce(cfg, w, n);
      Safety.OutsideContents(w.overtakers[n], Holders(cfg, w.m, gone));
      forall x | x in next.overtakers[n] ensures Overtook(cfg, next, n, x) {
        assert Overtook(cfg, w, n, x);
      }
    }
  }

  lemma CancelStaysFair(cfg: Config, w: World, n: Name)
    requires Inv(cfg, w)
    ensures AllOvertakenOnce(cfg, Step(cfg, w, DoCancel(n)))
  {
    Safety.RemoveContents(w.m.waiting, n);
    StaysFair(cfg, w, Step(cfg, w, DoCancel(n)));
  }

  lemma ParkedStaysFair(cfg: Config, w: World, n: Name, outcome: Checkpoint, now: nat, clock: nat)
    requires Inv(cfg, w) && Before(w, clock) && (Records(w, DoParked(n, outcome, now)) ==> now > clock)
    ensures AllOvertakenOnce(cfg, Step(cfg, w, DoParked(n, outcome, now)))
  {
    var next := Step(cfg, w, DoParked(n, outcome, now));
    if Records(w, DoParked(n, outcome, now)) {
      Safety.RemoveContents(w.m.waiting, n);
      ServedStaysFair(cfg, w, next, n, now, clock);
    } else {
      StaysFair(cfg, w, next);
    }
  }

  lemma UnregisterStaysFair(cfg: Config, w: World, n: Name)
    requires Inv(cfg, w)
    ensures AllOvertakenOnce(cfg, Step(cfg, w, DoUnregister(n)))
  {
    if Busy(w, n) || n !in w.m.workloads {
      StaysFair(cfg, w, Step(cfg, w, DoUnregister(n)));
    } else {
      Safety.RemoveContents(w.m.waiting, n);
      GoneStaysFair(cfg, w, Step(cfg, w, DoUnregister(n)), {n});
    }
  }

  lemma CloseStaysFair(cfg: Config, w: World, closing: nat)
    requires Inv(cfg, w)
    ensures AllOvertakenOnce(cfg, Step(cfg, w, DoClose(closing)))
  {
    if exists n :: n in On(w.m, closing) && Busy(w, n) {
      StaysFair(cfg, w, Step(cfg, w, DoClose(closing)));
    } else {
      Safety.OutsideContents(w.m.waiting, On(w.m, closing));
      GoneStaysFair(cfg, w, Step(cfg, w, DoClose(closing)), On(w.m, closing));
    }
  }

  lemma StepStaysFair(cfg: Config, w: World, op: Op, clock: nat)
    requires Inv(cfg, w) && cfg.policy.LeastRecentlyServed?
    requires Before(w, clock) && (Records(w, op) ==> op.now > clock)
    ensures AllOvertakenOnce(cfg, Step(cfg, w, op))
  {
    match op {
      case DoAcquire(n) => AcquireStaysFair(cfg, w, n);
      case DoResume(n) => ResumeStaysFair(cfg, w, n);
      case DoCancel(n) => CancelStaysFair(cfg, w, n);
      case DoParked(n, outcome, now) => ParkedStaysFair(cfg, w, n, outcome, now, clock);
      case DoUnregister(n) => UnregisterStaysFair(cfg, w, n);
      case DoClose(closing) => CloseStaysFair(cfg, w, closing);
      case _ => StaysFair(cfg, w, Step(cfg, w, op));
    }
  }

  lemma AnsweredTakesMonitor(cfg: Config, w: World, n: Name, m: Monitor, answer: Answer)
    ensures Answered(cfg, w, n, m, answer).m == m
  {
  }

  lemma SectionsKeepTimes(policy: Policy, m: Monitor, n: Name, claim: Claim)
    ensures Resume(policy, m, n, claim).0.lastRelease == m.lastRelease
    ensures Acquire(policy, m, n, claim).0.lastRelease == m.lastRelease
  {
  }

  lemma AcquireKeepsTimes(cfg: Config, w: World, n: Name)
    ensures Step(cfg, w, DoAcquire(n)).m.lastRelease == w.m.lastRelease
  {
    var (m, answer, inLine) := Acquire(cfg.policy, w.m, n, cfg.claimOf(n));
    SectionsKeepTimes(cfg.policy, w.m, n, cfg.claimOf(n));
    AnsweredTakesMonitor(cfg, w.(overtakers := w.overtakers[n := []]), n, m, answer);
  }

  lemma ResumeKeepsTimes(cfg: Config, w: World, n: Name)
    ensures Step(cfg, w, DoResume(n)).m.lastRelease == w.m.lastRelease
  {
    var (m, answer) := Resume(cfg.policy, w.m, n, cfg.claimOf(n));
    SectionsKeepTimes(cfg.policy, w.m, n, cfg.claimOf(n));
    AnsweredTakesMonitor(cfg, w, n, m, answer);
  }

  lemma StepKeepsTimes(cfg: Config, w: World, op: Op)
    ensures Step(cfg, w, op).m.lastRelease == if Records(w, op) then w.m.lastRelease[op.name := op.now] else w.m.lastRelease
  {
    match op {
      case DoAcquire(n) => AcquireKeepsTimes(cfg, w, n);
      case DoResume(n) => ResumeKeepsTimes(cfg, w, n);
      case _ =>
    }
  }

  lemma StepStaysBefore(cfg: Config, w: World, op: Op, clock: nat)
    requires Before(w, clock) && (Records(w, op) ==> op.now > clock)
    ensures Before(Step(cfg, w, op), After(w, op, clock))
  {
    StepKeepsTimes(cfg, w, op);
    forall n ensures Last(Step(cfg, w, op).m.lastRelease, n) <= After(w, op, clock) {
      assert Last(w.m.lastRelease, n) <= clock;
    }
  }

  lemma {:induction false} EveryRunIsFair(cfg: Config, w: World, ops: seq<Op>, clock: nat)
    requires Inv(cfg, w) && cfg.policy.LeastRecentlyServed?
    requires Before(w, clock) && Increasing(cfg, w, ops, clock)
    ensures Inv(cfg, Run(cfg, w, ops))
    decreases |ops|
  {
    if ops == [] {
    } else {
      Safety.StepKeepsInv(cfg, w, ops[0]);
      StepStaysFair(cfg, w, ops[0], clock);
      StepStaysBefore(cfg, w, ops[0], clock);
      EveryRunIsFair(cfg, Step(cfg, w, ops[0]), ops[1..], After(w, ops[0], clock));
    }
  }

  lemma {:induction false} NoDupIsSmall(names: seq<Name>, within: set<Name>)
    requires NoDup(names) && forall n :: n in names ==> n in within
    ensures |names| <= |within|
  {
    if names == [] {
    } else {
      NoDupIsSmall(names[1..], within - {names[0]});
    }
  }

  /** The other workloads of a claim that are registered or have completed a turn, even if they have left since. */
  function Rivals(cfg: Config, w: World, waiter: Name): set<Name>
  {
    set n | n in w.m.workloads.Keys + w.m.lastRelease.Keys && n != waiter && cfg.claimOf(n) == cfg.claimOf(waiter)
  }

  /**
    Bounded bypass: in any run whose completed releases read increasing times,
    nobody appears twice among those granted a waiter's claim since it joined
    the line, so it is overtaken at most once by each of its rivals. Leaving
    between turns and registering again does not help.
  */
  lemma NobodyOvertakesTwice(cfg: Config, ops: seq<Op>, waiter: Name)
    requires cfg.policy.LeastRecentlyServed? && Increasing(cfg, START, ops, 0)
    requires waiter in Run(cfg, START, ops).m.waiting
    ensures var w := Run(cfg, START, ops);
            waiter in w.overtakers && NoDup(w.overtakers[waiter]) && |w.overtakers[waiter]| <= |Rivals(cfg, w, waiter)|
  {
    EveryRunIsFair(cfg, START, ops, 0);
    var w := Run(cfg, START, ops);
    assert OvertakenOnce(cfg, w, waiter);
    forall x | x in w.overtakers[waiter] ensures x in Rivals(cfg, w, waiter) {
      assert Overtook(cfg, w, waiter, x);
    }
    NoDupIsSmall(w.overtakers[waiter], Rivals(cfg, w, waiter));
  }
}
