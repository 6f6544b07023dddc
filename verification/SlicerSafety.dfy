/**
  What every reachable state of the time slicer satisfies, whatever the order in
  which workloads register, acquire, wait, restore, release, fail, unregister
  and disconnect.
*/
module SlicerSafety {
  import opened Wrappers
  import opened TimeSlicer

  // ---------- the invariant ----------

  /** The line holds each waiter once, live, with its wait in flight. */
  ghost predicate LineOk(w: World)
  {
    && NoDup(w.m.waiting)
    && forall n :: n in w.m.waiting ==>
         n in w.m.workloads && !w.m.workloads[n].failed && PhaseOf(w, n).Waiting?
  }

  ghost predicate ClaimsOk(cfg: Config, w: World)
  {
    forall n :: n in w.m.workloads ==> w.m.workloads[n].claim == cfg.claimOf(n)
  }

  ghost predicate Granted1(cfg: Config, w: World, n: Name)
  {
    Holds(w.m, n, cfg.claimOf(n))
  }

  ghost predicate GrantsOk(cfg: Config, w: World)
  {
    && (forall c :: c in w.m.running ==>
          cfg.claimOf(w.m.running[c]) == c && w.m.running[c] in w.m.workloads && !PhaseOf(w, w.m.running[c]).Waiting?)
    && (forall n :: Busy(w, n) ==> n in w.m.workloads && Granted1(cfg, w, n))
  }

  /** Mutual exclusion on the devices. */
  ghost predicate ResidentsHold(cfg: Config, w: World)
  {
    forall n :: n in w.resident ==> Granted1(cfg, w, n)
  }

  /** A checkpointed flag means there is something to restore, and that the workload is off the devices. */
  ghost predicate FlagOk(cfg: Config, w: World, n: Name)
  {
    n in w.m.workloads && w.m.workloads[n].checkpointed ==>
      PhaseOf(w, n) == Restoring || (HasPids(w, n) && n in w.unrestored && !Granted1(cfg, w, n))
  }

  ghost predicate FlagsOk(cfg: Config, w: World)
  {
    !w.badRestore && forall n :: n in w.m.workloads ==> FlagOk(cfg, w, n)
  }

  /** No lost wake-up: whoever is next for a free claim has been told so. */
  ghost predicate NextIsAwake(cfg: Config, w: World)
  {
    forall n :: n in w.m.waiting && cfg.claimOf(n) !in w.m.running && NextWaiter(cfg.policy, w.m, cfg.claimOf(n)) == Some(n)
      ==> PhaseOf(w, n) == Waiting(true)
  }

  ghost predicate Inv(cfg: Config, w: World)
  {
    LineOk(w) && ClaimsOk(cfg, w) && GrantsOk(cfg, w) && ResidentsHold(cfg, w) && FlagsOk(cfg, w) && NextIsAwake(cfg, w)
  }

  // ---------- lists ----------

  lemma {:induction false} RemoveContents(names: seq<Name>, name: Name)
    requires NoDup(names)
    ensures NoDup(Remove(names, name))
    ensures forall n :: n in Remove(names, name) <==> n in names && n != name
  {
    if names == [] {
    } else {
      var head, tail := names[0], names[1..];
      assert names == [head] + tail && head !in tail;
      RemoveContents(tail, name);
      if head != name {
        ConsNoDup(head, Remove(tail, name));
      }
    }
  }

  lemma ConsNoDup(head: Name, tail: seq<Name>)
    requires NoDup(tail) && head !in tail
    ensures NoDup([head] + tail)
  {
  }

  lemma {:induction false} OutsideContents(names: seq<Name>, gone: set<Name>)
    ensures forall n :: n in Outside(names, gone) <==> n in names && n !in gone
    ensures NoDup(names) ==> NoDup(Outside(names, gone))
  {
    if names == [] {
    } else {
      OutsideContents(names[1..], gone);
      assert names == [names[0]] + names[1..];
    }
  }

  lemma {:induction false} WaitersContents(workloads: map<Name, Workload>, waiting: seq<Name>, claim: Claim)
    ensures forall n :: n in WaitersOn(workloads, waiting, claim) <==> n in waiting && n in workloads && workloads[n].claim == claim
  {
    if waiting == [] {
    } else {
      WaitersContents(workloads, waiting[1..], claim);
    }
  }

  /** The line for a claim depends only on who waits and on their claims. */
  lemma {:induction false} SameClaimsSameLine(a: map<Name, Workload>, b: map<Name, Workload>, waiting: seq<Name>, claim: Claim)
    requires forall n :: n in waiting ==> n in a && n in b && a[n].claim == b[n].claim
    ensures WaitersOn(a, waiting, claim) == WaitersOn(b, waiting, claim)
  {
    if waiting == [] {
    } else {
      SameClaimsSameLine(a, b, waiting[1..], claim);
    }
  }

  lemma {:induction false} LineAppend(workloads: map<Name, Workload>, waiting: seq<Name>, name: Name, claim: Claim)
    ensures WaitersOn(workloads, waiting + [name], claim) ==
            WaitersOn(workloads, waiting, claim) + (if name in workloads && workloads[name].claim == claim then [name] else [])
  {
    if waiting == [] {
    } else {
      assert (waiting + [name])[1..] == waiting[1..] + [name];
      LineAppend(workloads, waiting[1..], name, claim);
    }
  }

  lemma {:induction false} LeastServedAppend(names: seq<Name>, name: Name, lastRelease: map<Name, nat>)
    requires names != []
    ensures var best := LeastServed(names, lastRelease);
            LeastServed(names + [name], lastRelease) ==
            if Last(lastRelease, name) < Last(lastRelease, best) then name else best
  {
    if |names| == 1 {
    } else {
      assert (names + [name])[1..] == names[1..] + [name];
      LeastServedAppend(names[1..], name, lastRelease);
    }
  }

  /** A newcomer is next itself or leaves whoever was next in place. */
  lemma NewcomerKeepsNext(policy: Policy, m: Monitor, name: Name, claim: Claim)
    ensures var joined := m.(waiting := m.waiting + [name]);
            NextWaiter(policy, joined, claim) == Some(name) || NextWaiter(policy, joined, claim) == NextWaiter(policy, m, claim)
  {
    LineAppend(m.workloads, m.waiting, name, claim);
    var before := WaitersOn(m.workloads, m.waiting, claim);
    assert before + [] == before;
    if before != [] && name in m.workloads && m.workloads[name].claim == claim && policy.LeastRecentlyServed? {
      LeastServedAppend(before, name, m.lastRelease);
    }
  }

  lemma NextIsInLine(policy: Policy, m: Monitor, claim: Claim)
    ensures var next := NextWaiter(policy, m, claim);
            next.Some? ==> next.value in m.waiting && next.value in m.workloads && m.workloads[next.value].claim == claim
    ensures (exists n :: n in m.waiting && n in m.workloads && m.workloads[n].claim == claim) ==> NextWaiter(policy, m, claim).Some?
  {
    WaitersContents(m.workloads, m.waiting, claim);
  }

  // ---------- every step keeps the invariant ----------

  /** Everyone in a wait has been told to look again. */
  ghost predicate AllNotified(w: World)
  {
    forall n :: PhaseOf(w, n).Waiting? ==> PhaseOf(w, n) == Waiting(true)
  }

  lemma NotifiedIsAwake(cfg: Config, w: World)
    requires LineOk(w) && AllNotified(w)
    ensures NextIsAwake(cfg, w)
  {
  }

  /** Whatever may change who is next notifies all waiters. */
  lemma StepNotifies(cfg: Config, w: World, op: Op)
    requires op.DoRegister? || op.DoCancel? || op.DoRestored? || op.DoParked? || op.DoUnregister? || op.DoClose?
    ensures Step(cfg, w, op) == w || AllNotified(Step(cfg, w, op))
  {
  }

  lemma StepKeepsAwake(cfg: Config, w: World, op: Op)
    requires op.DoRegister? || op.DoCancel? || op.DoRestored? || op.DoParked? || op.DoUnregister? || op.DoClose?
    requires NextIsAwake(cfg, w) && LineOk(Step(cfg, w, op))
    ensures NextIsAwake(cfg, Step(cfg, w, op))
  {
    StepNotifies(cfg, w, op);
    if AllNotified(Step(cfg, w, op)) {
      NotifiedIsAwake(cfg, Step(cfg, w, op));
    }
  }

  lemma RegisterKeepsLine(cfg: Config, w: World, n: Name, connection: Option<nat>)
    requires LineOk(w) && ClaimsOk(cfg, w)
    ensures LineOk(Step(cfg, w, DoRegister(n, connection))) && ClaimsOk(cfg, Step(cfg, w, DoRegister(n, connection)))
  {
  }

  lemma RegisterKeepsGrants(cfg: Config, w: World, n: Name, connection: Option<nat>)
    requires Inv(cfg, w)
    ensures GrantsOk(cfg, Step(cfg, w, DoRegister(n, connection))) && ResidentsHold(cfg, Step(cfg, w, DoRegister(n, connection)))
  {
  }

  lemma RegisterKeepsFlags(cfg: Config, w: World, n: Name, connection: Option<nat>)
    requires Inv(cfg, w)
    ensures FlagsOk(cfg, Step(cfg, w, DoRegister(n, connection)))
  {
  }

  lemma CancelKeepsLine(cfg: Config, w: World, n: Name)
    requires LineOk(w) && ClaimsOk(cfg, w)
    ensures LineOk(Step(cfg, w, DoCancel(n))) && ClaimsOk(cfg, Step(cfg, w, DoCancel(n)))
  {
    RemoveContents(w.m.waiting, n);
  }

  lemma CancelKeepsGrants(cfg: Config, w: World, n: Name)
    requires Inv(cfg, w)
    ensures GrantsOk(cfg, Step(cfg, w, DoCancel(n))) && ResidentsHold(cfg, Step(cfg, w, DoCancel(n)))
  {
  }

  lemma CancelKeepsFlags(cfg: Config, w: World, n: Name)
    requires Inv(cfg, w)
    ensures FlagsOk(cfg, Step(cfg, w, DoCancel(n)))
  {
  }

  lemma RestoredKeepsLine(cfg: Config, w: World, n: Name, worked: bool)
    requires LineOk(w) && ClaimsOk(cfg, w)
    ensures LineOk(Step(cfg, w, DoRestored(n, worked))) && ClaimsOk(cfg, Step(cfg, w, DoRestored(n, worked)))
  {
  }

  lemma RestoredKeepsGrants(cfg: Config, w: World, n: Name, worked: bool)
    requires Inv(cfg, w)
    ensures GrantsOk(cfg, Step(cfg, w, DoRestored(n, worked))) && ResidentsHold(cfg, Step(cfg, w, DoRestored(n, worked)))
  {
  }

  lemma RestoredKeepsFlags(cfg: Config, w: World, n: Name, worked: bool)
    requires Inv(cfg, w)
    ensures FlagsOk(cfg, Step(cfg, w, DoRestored(n, worked)))
  {
  }

  lemma ReleaseKeepsLine(cfg: Config, w: World, n: Name)
    requires LineOk(w) && ClaimsOk(cfg, w) && NextIsAwake(cfg, w)
    ensures LineOk(Step(cfg, w, DoRelease(n))) && ClaimsOk(cfg, Step(cfg, w, DoRelease(n))) && NextIsAwake(cfg, Step(cfg, w, DoRelease(n)))
  {
  }

  lemma ReleaseKeepsGrants(cfg: Config, w: World, n: Name)
    requires GrantsOk(cfg, w) && ResidentsHold(cfg, w)
    ensures GrantsOk(cfg, Step(cfg, w, DoRelease(n))) && ResidentsHold(cfg, Step(cfg, w, DoRelease(n)))
  {
  }

  lemma ReleaseKeepsFlags(cfg: Config, w: World, n: Name)
    requires FlagsOk(cfg, w)
    ensures FlagsOk(cfg, Step(cfg, w, DoRelease(n)))
  {
  }

  lemma UseKeeps(cfg: Config, w: World, n: Name)
    requires Inv(cfg, w)
    ensures Inv(cfg, Step(cfg, w, DoUse(n)))
  {
    var next := Step(cfg, w, DoUse(n));
    assert next == w.(resident := next.resident);
    assert forall x :: FlagOk(cfg, next, x) <==> FlagOk(cfg, w, x);
  }

  lemma FaultedKeepsLine(cfg: Config, w: World, n: Name, now: nat)
    requires LineOk(w) && ClaimsOk(cfg, w)
    ensures LineOk(Step(cfg, w, DoParked(n, Failed, now))) && ClaimsOk(cfg, Step(cfg, w, DoParked(n, Failed, now)))
  {
  }

  lemma FaultedKeepsGrants(cfg: Config, w: World, n: Name, now: nat)
    requires Inv(cfg, w)
    ensures GrantsOk(cfg, Step(cfg, w, DoParked(n, Failed, now))) && ResidentsHold(cfg, Step(cfg, w, DoParked(n, Failed, now)))
  {
  }

  lemma FaultedKeepsFlags(cfg: Config, w: World, n: Name, now: nat)
    requires Inv(cfg, w)
    ensures FlagsOk(cfg, Step(cfg, w, DoParked(n, Failed, now)))
  {
  }

  lemma ParkedLine(m: Monitor, n: Name, checkpointed: bool, now: nat)
    requires NoDup(m.waiting)
    ensures var parked := Parked(m, n, checkpointed, now);
            && NoDup(parked.waiting) && (forall x :: x in parked.waiting ==> x in m.waiting && x != n)
            && parked.workloads.Keys == m.workloads.Keys
            && forall x :: x in m.workloads ==>
                 parked.workloads[x].claim == m.workloads[x].claim && parked.workloads[x].failed == m.workloads[x].failed
  {
    RemoveContents(m.waiting, n);
  }

  lemma LineAfterParking(cfg: Config, w: World, n: Name, checkpointed: bool, now: nat)
    requires LineOk(w) && ClaimsOk(cfg, w)
    ensures var next := w.(m := Parked(w.m, n, checkpointed, now), phase := Notify(w.phase)[n := Idle]);
            LineOk(next) && ClaimsOk(cfg, next)
  {
    ParkedLine(w.m, n, checkpointed, now);
  }

  lemma NothingParkedKeepsLine(cfg: Config, w: World, n: Name, now: nat)
    requires LineOk(w) && ClaimsOk(cfg, w)
    ensures LineOk(Step(cfg, w, DoParked(n, NothingThere, now))) && ClaimsOk(cfg, Step(cfg, w, DoParked(n, NothingThere, now)))
  {
    LineAfterParking(cfg, w, n, false, now);
  }

  lemma NothingParkedKeepsGrants(cfg: Config, w: World, n: Name, now: nat)
    requires Inv(cfg, w)
    ensures GrantsOk(cfg, Step(cfg, w, DoParked(n, NothingThere, now))) && ResidentsHold(cfg, Step(cfg, w, DoParked(n, NothingThere, now)))
  {
  }

  lemma NothingParkedKeepsFlags(cfg: Config, w: World, n: Name, now: nat)
    requires Inv(cfg, w)
    ensures FlagsOk(cfg, Step(cfg, w, DoParked(n, NothingThere, now)))
  {
  }

  lemma SavedKeepsLine(cfg: Config, w: World, n: Name, pids: seq<nat>, now: nat)
    requires LineOk(w) && ClaimsOk(cfg, w)
    ensures LineOk(Step(cfg, w, DoParked(n, Saved(pids), now))) && ClaimsOk(cfg, Step(cfg, w, DoParked(n, Saved(pids), now)))
  {
    LineAfterParking(cfg, w, n, true, now);
  }

  lemma SavedKeepsGrants(cfg: Config, w: World, n: Name, pids: seq<nat>, now: nat)
    requires Inv(cfg, w)
    ensures GrantsOk(cfg, Step(cfg, w, DoParked(n, Saved(pids), now))) && ResidentsHold(cfg, Step(cfg, w, DoParked(n, Saved(pids), now)))
  {
  }

  lemma SavedKeepsFlags(cfg: Config, w: World, n: Name, pids: seq<nat>, now: nat)
    requires Inv(cfg, w)
    ensures FlagsOk(cfg, Step(cfg, w, DoParked(n, Saved(pids), now)))
  {
  }

  lemma UnregisterKeepsLine(cfg: Config, w: World, n: Name)
    requires LineOk(w) && ClaimsOk(cfg, w)
    ensures LineOk(Step(cfg, w, DoUnregister(n))) && ClaimsOk(cfg, Step(cfg, w, DoUnregister(n)))
  {
    RemoveContents(w.m.waiting, n);
  }

  lemma UnregisterKeepsGrants(cfg: Config, w: World, n: Name)
    requires Inv(cfg, w)
    ensures GrantsOk(cfg, Step(cfg, w, DoUnregister(n))) && ResidentsHold(cfg, Step(cfg, w, DoUnregister(n)))
  {
  }

  lemma UnregisterKeepsFlags(cfg: Config, w: World, n: Name)
    requires Inv(cfg, w)
    ensures FlagsOk(cfg, Step(cfg, w, DoUnregister(n)))
  {
  }

  lemma CloseKeepsLine(cfg: Config, w: World, closing: nat)
    requires LineOk(w) && ClaimsOk(cfg, w)
    ensures LineOk(Step(cfg, w, DoClose(closing))) && ClaimsOk(cfg, Step(cfg, w, DoClose(closing)))
  {
    OutsideContents(w.m.waiting, On(w.m, closing));
  }

  lemma CloseKeepsGrants(cfg: Config, w: World, closing: nat)
    requires Inv(cfg, w)
    ensures GrantsOk(cfg, Step(cfg, w, DoClose(closing))) && ResidentsHold(cfg, Step(cfg, w, DoClose(closing)))
  {
  }

  lemma CloseKeepsFlags(cfg: Config, w: World, closing: nat)
    requires Inv(cfg, w)
    ensures FlagsOk(cfg, Step(cfg, w, DoClose(closing)))
  {
  }

  lemma RefusalKeeps(cfg: Config, w: World, n: Name)
    requires Inv(cfg, w) && PhaseOf(w, n) == Waiting(true) && n !in w.m.waiting
    ensures Inv(cfg, Answered(cfg, w, n, Clear(w.m, n), Refused))
  {
    RemoveContents(w.m.waiting, n);
  }

  ghost function GrantOf(cfg: Config, w: World, n: Name): World
    requires n in w.m.workloads
  {
    var m := w.m.(waiting := Remove(w.m.waiting, n), running := w.m.running[cfg.claimOf(n) := n]);
    Answered(cfg, w, n, m, Granted(w.m.workloads[n].checkpointed))
  }

  ghost predicate MayGrant(cfg: Config, w: World, n: Name)
  {
    n in w.m.waiting && n in w.m.workloads && PhaseOf(w, n) == Waiting(true) && cfg.claimOf(n) !in w.m.running
  }

  lemma GrantKeepsLine(cfg: Config, w: World, n: Name)
    requires Inv(cfg, w) && MayGrant(cfg, w, n)
    ensures LineOk(GrantOf(cfg, w, n)) && ClaimsOk(cfg, GrantOf(cfg, w, n)) && NextIsAwake(cfg, GrantOf(cfg, w, n))
  {
    RemoveContents(w.m.waiting, n);
  }

  lemma GrantKeepsGrants(cfg: Config, w: World, n: Name)
    requires Inv(cfg, w) && MayGrant(cfg, w, n)
    ensures GrantsOk(cfg, GrantOf(cfg, w, n))
  {
  }

  lemma GrantKeepsResidents(cfg: Config, w: World, n: Name)
    requires Inv(cfg, w) && MayGrant(cfg, w, n)
    ensures ResidentsHold(cfg, GrantOf(cfg, w, n))
  {
  }

  lemma GrantKeepsFlags(cfg: Config, w: World, n: Name)
    requires Inv(cfg, w) && MayGrant(cfg, w, n)
    ensures FlagsOk(cfg, GrantOf(cfg, w, n))
  {
    assert FlagOk(cfg, w, n);
    forall x | x in w.m.workloads ensures FlagOk(cfg, GrantOf(cfg, w, n), x) {
      assert FlagOk(cfg, w, x);
    }
  }

  lemma ResumeKeeps(cfg: Config, w: World, n: Name)
    requires Inv(cfg, w)
    ensures Inv(cfg, Step(cfg, w, DoResume(n)))
  {
    if PhaseOf(w, n) == Waiting(true) {
      if n !in w.m.waiting {
        RefusalKeeps(cfg, w, n);
      } else if cfg.claimOf(n) !in w.m.running && NextWaiter(cfg.policy, w.m, cfg.claimOf(n)) == Some(n) {
        GrantKeepsLine(cfg, w, n);
        GrantKeepsGrants(cfg, w, n);
        GrantKeepsResidents(cfg, w, n);
        GrantKeepsFlags(cfg, w, n);
        assert Step(cfg, w, DoResume(n)) == GrantOf(cfg, w, n);
      }
    }
  }

  /** The workload in line and about to look at the claim, as acquire leaves it before its first test. */
  ghost function Joined(cfg: Config, w: World, n: Name): World
  {
    var known := if n in w.m.workloads then w.m else Register(w.m, n, cfg.claimOf(n), None);
    w.(m := known.(waiting := known.waiting + [n]), phase := w.phase[n := Waiting(true)], overtakers := w.overtakers[n := []])
  }

  lemma JoiningKeepsAwake(cfg: Config, w: World, n: Name)
    requires Inv(cfg, w) && PhaseOf(w, n) == Idle
    requires n in w.m.workloads ==> !w.m.workloads[n].failed
    ensures NextIsAwake(cfg, Joined(cfg, w, n))
  {
    var next := Joined(cfg, w, n);
    forall x | x in next.m.waiting && cfg.claimOf(x) !in next.m.running &&
               NextWaiter(cfg.policy, next.m, cfg.claimOf(x)) == Some(x)
      ensures PhaseOf(next, x) == Waiting(true)
    {
      var known := if n in w.m.workloads then w.m else Register(w.m, n, cfg.claimOf(n), None);
      NewcomerKeepsNext(cfg.policy, known, n, cfg.claimOf(x));
      SameClaimsSameLine(w.m.workloads, known.workloads, w.m.waiting, cfg.claimOf(x));
    }
  }

  lemma JoiningKeepsLine(cfg: Config, w: World, n: Name)
    requires Inv(cfg, w) && PhaseOf(w, n) == Idle && !Granted1(cfg, w, n)
    requires n in w.m.workloads ==> !w.m.workloads[n].failed
    ensures LineOk(Joined(cfg, w, n)) && ClaimsOk(cfg, Joined(cfg, w, n))
  {
  }

  lemma JoiningKeepsGrants(cfg: Config, w: World, n: Name)
    requires Inv(cfg, w) && PhaseOf(w, n) == Idle && !Granted1(cfg, w, n)
    requires n in w.m.workloads ==> !w.m.workloads[n].failed
    ensures GrantsOk(cfg, Joined(cfg, w, n)) && ResidentsHold(cfg, Joined(cfg, w, n)) && FlagsOk(cfg, Joined(cfg, w, n))
  {
  }

  lemma JoiningKeeps(cfg: Config, w: World, n: Name)
    requires Inv(cfg, w) && PhaseOf(w, n) == Idle && !Granted1(cfg, w, n)
    requires n in w.m.workloads ==> !w.m.workloads[n].failed
    ensures Inv(cfg, Joined(cfg, w, n))
  {
    JoiningKeepsLine(cfg, w, n);
    JoiningKeepsGrants(cfg, w, n);
    JoiningKeepsAwake(cfg, w, n);
  }

  lemma AcquireIsJoinThenResume(cfg: Config, w: World, n: Name)
    requires LineOk(w) && PhaseOf(w, n) == Idle && !Granted1(cfg, w, n)
    requires n in w.m.workloads ==> !w.m.workloads[n].failed
    ensures Step(cfg, w, DoAcquire(n)) == Step(cfg, Joined(cfg, w, n), DoResume(n))
  {
    var joined := Joined(cfg, w, n);
    assert joined.phase[n := Waiting(false)] == w.phase[n := Waiting(false)];
    assert Notify(joined.phase)[n := Idle] == Notify(w.phase)[n := Idle];
    assert Notify(joined.phase)[n := Restoring] == Notify(w.phase)[n := Restoring];
  }

  lemma AcquireKeeps(cfg: Config, w: World, n: Name)
    requires Inv(cfg, w)
    ensures Inv(cfg, Step(cfg, w, DoAcquire(n)))
  {
    if PhaseOf(w, n) == Idle {
      if !Granted1(cfg, w, n) && (n in w.m.workloads ==> !w.m.workloads[n].failed) {
        JoiningKeeps(cfg, w, n);
        ResumeKeeps(cfg, Joined(cfg, w, n), n);
        AcquireIsJoinThenResume(cfg, w, n);
      }
    }
  }

  lemma StepKeepsInv(cfg: Config, w: World, op: Op)
    requires Inv(cfg, w)
    ensures Inv(cfg, Step(cfg, w, op))
  {
    match op {
      case DoRegister(n, connection) =>
        RegisterKeepsLine(cfg, w, n, connection);
        StepKeepsAwake(cfg, w, op);
        RegisterKeepsGrants(cfg, w, n, connection);
        RegisterKeepsFlags(cfg, w, n, connection);
      case DoAcquire(n) => AcquireKeeps(cfg, w, n);
      case DoResume(n) => ResumeKeeps(cfg, w, n);
      case DoCancel(n) =>
        CancelKeepsLine(cfg, w, n);
        StepKeepsAwake(cfg, w, op);
        CancelKeepsGrants(cfg, w, n);
        CancelKeepsFlags(cfg, w, n);
      case DoRestored(n, worked) =>
        RestoredKeepsLine(cfg, w, n, worked);
        StepKeepsAwake(cfg, w, op);
        RestoredKeepsGrants(cfg, w, n, worked);
        RestoredKeepsFlags(cfg, w, n, worked);
      case DoRelease(n) =>
        ReleaseKeepsLine(cfg, w, n);
        ReleaseKeepsGrants(cfg, w, n);
        ReleaseKeepsFlags(cfg, w, n);
      case DoParked(n, outcome, now) =>
        match outcome {
          case NothingThere =>
            NothingParkedKeepsLine(cfg, w, n, now);
            StepKeepsAwake(cfg, w, op);
            NothingParkedKeepsGrants(cfg, w, n, now);
            NothingParkedKeepsFlags(cfg, w, n, now);
          case Saved(pids) =>
            SavedKeepsLine(cfg, w, n, pids, now);
            StepKeepsAwake(cfg, w, op);
            SavedKeepsGrants(cfg, w, n, pids, now);
            SavedKeepsFlags(cfg, w, n, pids, now);
          case Failed =>
            FaultedKeepsLine(cfg, w, n, now);
            StepKeepsAwake(cfg, w, op);
            FaultedKeepsGrants(cfg, w, n, now);
            FaultedKeepsFlags(cfg, w, n, now);
        }
      case DoUnregister(n) =>
        UnregisterKeepsLine(cfg, w, n);
        StepKeepsAwake(cfg, w, op);
        UnregisterKeepsGrants(cfg, w, n);
        UnregisterKeepsFlags(cfg, w, n);
      case DoClose(closing) =>
        CloseKeepsLine(cfg, w, closing);
        StepKeepsAwake(cfg, w, op);
        CloseKeepsGrants(cfg, w, closing);
        CloseKeepsFlags(cfg, w, closing);
      case DoUse(n) => UseKeeps(cfg, w, n);
    }
  }

  lemma {:induction false} EveryRunKeepsInv(cfg: Config, w: World, ops: seq<Op>)
    requires Inv(cfg, w)
    ensures Inv(cfg, Run(cfg, w, ops))
    decreases |ops|
  {
    if ops == [] {
    } else {
      StepKeepsInv(cfg, w, ops[0]);
      EveryRunKeepsInv(cfg, Step(cfg, w, ops[0]), ops[1..]);
    }
  }

  // ---------- the theorems ----------

  /** At most one workload per claim is on the devices, and it is the one recorded as running. */
  lemma OneResidentPerClaim(cfg: Config, ops: seq<Op>)
    ensures var w := Run(cfg, START, ops);
            (forall n :: n in w.resident ==> Holds(w.m, n, cfg.claimOf(n))) &&
            (forall a, b :: a in w.resident && b in w.resident && cfg.claimOf(a) == cfg.claimOf(b) ==> a == b)
  {
    EveryRunKeepsInv(cfg, START, ops);
  }

  /**
    A grant ends only when its holder is parked, unregistered or disconnected,
    so a workload that could not be parked blocks its claim until it is gone.
  */
  lemma GrantsEndWithTheirHolder(cfg: Config, ops: seq<Op>, op: Op, n: Name)
    requires Holds(Run(cfg, START, ops).m, n, cfg.claimOf(n))
    requires !Holds(Step(cfg, Run(cfg, START, ops), op).m, n, cfg.claimOf(n))
    ensures EndsGrant(Run(cfg, START, ops), op, n)
  {
    EveryRunKeepsInv(cfg, START, ops);
    OthersKeepTheGrant(cfg, Run(cfg, START, ops), op, n);
  }

  lemma ResumeKeepsHolders(cfg: Config, w: World, x: Name, n: Name)
    requires Inv(cfg, w) && Holds(w.m, n, cfg.claimOf(n))
    ensures Holds(Step(cfg, w, DoResume(x)).m, n, cfg.claimOf(n))
  {
    assert PhaseOf(w, x).Waiting? ==> w.m.running[cfg.claimOf(n)] != x;
  }

  lemma AcquireKeepsHolders(cfg: Config, w: World, x: Name, n: Name)
    requires Inv(cfg, w) && Holds(w.m, n, cfg.claimOf(n))
    ensures Holds(Step(cfg, w, DoAcquire(x)).m, n, cfg.claimOf(n))
  {
    if PhaseOf(w, x) == Idle && !Granted1(cfg, w, x) && (x in w.m.workloads ==> !w.m.workloads[x].failed) {
      JoiningKeeps(cfg, w, x);
      AcquireIsJoinThenResume(cfg, w, x);
      ResumeKeepsHolders(cfg, Joined(cfg, w, x), x, n);
    }
  }

  ghost predicate EndsGrant(w: World, op: Op, n: Name)
  {
    || (op.DoParked? && op.name == n && !op.outcome.Failed?)
    || op == DoUnregister(n)
    || (op.DoClose? && n in On(w.m, op.closing))
  }

  /** Only acquiring, parking, unregistering and disconnecting touch the grants. */
  lemma QuietSteps(cfg: Config, w: World, op: Op)
    requires op.DoRegister? || op.DoCancel? || op.DoRestored? || op.DoRelease? || op.DoUse?
    ensures Step(cfg, w, op).m.running == w.m.running
  {
  }

  lemma ParkingKeepsHolders(cfg: Config, w: World, op: Op, n: Name)
    requires op.DoParked? && Holds(w.m, n, cfg.claimOf(n))
    ensures Holds(Step(cfg, w, op).m, n, cfg.claimOf(n)) || EndsGrant(w, op, n)
  {
  }

  lemma LeavingKeepsHolders(cfg: Config, w: World, op: Op, n: Name)
    requires op.DoUnregister? || op.DoClose?
    requires Holds(w.m, n, cfg.claimOf(n))
    ensures Holds(Step(cfg, w, op).m, n, cfg.claimOf(n)) || EndsGrant(w, op, n)
  {
  }

  lemma OthersKeepTheGrant(cfg: Config, w: World, op: Op, n: Name)
    requires Inv(cfg, w) && Holds(w.m, n, cfg.claimOf(n))
    ensures Holds(Step(cfg, w, op).m, n, cfg.claimOf(n)) || EndsGrant(w, op, n)
  {
    if op.DoAcquire? {
      AcquireKeepsHolders(cfg, w, op.name, n);
    } else if op.DoResume? {
      ResumeKeepsHolders(cfg, w, op.name, n);
    } else if op.DoParked? {
      ParkingKeepsHolders(cfg, w, op, n);
    } else if op.DoUnregister? || op.DoClose? {
      LeavingKeepsHolders(cfg, w, op, n);
    } else {
      QuietSteps(cfg, w, op);
    }
  }

  /** Every restore has its own earlier checkpoint, and the restorer knows which processes to restore. */
  lemma RestoresHaveCheckpoints(cfg: Config, ops: seq<Op>)
    ensures !Run(cfg, START, ops).badRestore
  {
    EveryRunKeepsInv(cfg, START, ops);
  }

  /**
    A free claim with workloads in line: exactly one of them can proceed, it has
    been notified, and running it grants the claim. The others would wait again.
  */
  lemma FreeClaimIsTaken(cfg: Config, ops: seq<Op>, waiter: Name)
    requires var w := Run(cfg, START, ops); waiter in w.m.waiting && cfg.claimOf(waiter) !in w.m.running
    ensures var w := Run(cfg, START, ops);
            var claim := cfg.claimOf(waiter);
            var next := NextWaiter(cfg.policy, w.m, claim);
            next.Some? && PhaseOf(w, next.value) == Waiting(true) && cfg.claimOf(next.value) == claim &&
            Holds(Step(cfg, w, DoResume(next.value)).m, next.value, claim) &&
            (waiter != next.value ==> Resume(cfg.policy, w.m, waiter, claim) == (w.m, Waits))
  {
    EveryRunKeepsInv(cfg, START, ops);
    NextIsInLine(cfg.policy, Run(cfg, START, ops).m, cfg.claimOf(waiter));
  }

  /**
    Why one call in flight per name matters: a resume left over from an earlier
    process takes the grant away from a later one of the same name.
  */
  lemma StaleResumeDropsTheGrant(policy: Policy, m: Monitor, n: Name, claim: Claim)
    requires Holds(m, n, claim) && n !in m.waiting
    ensures var (after, answer) := Resume(policy, m, n, claim);
            answer == Refused && !Holds(after, n, claim)
  {
  }
}
