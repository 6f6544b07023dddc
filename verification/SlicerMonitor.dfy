/**
  The time slicer's methods, one per critical section, over the fields they
  update. Each leaves the fields exactly as the matching function of
  TimeSlicer.dfy says.
*/
module SlicerMonitor {
  import opened Wrappers
  import opened TimeSlicer
  import Safety = SlicerSafety

  class SingleNodeTimeSlicer {
    const policy: Policy
    var workloads: map<Name, Workload>
    var waiting: seq<Name>
    var running: map<Claim, Name>
    var lastRelease: map<Name, nat>

    function View(): Monitor
      reads this
    {
      Monitor(workloads, waiting, running, lastRelease)
    }

    ghost predicate Valid()
      reads this
    {
      NoDup(waiting) && forall n :: n in waiting ==> n in workloads
    }

    constructor (policy: Policy)
      ensures Valid() && View() == START.m && this.policy == policy
    {
      this.policy := policy;
      workloads, waiting, running, lastRelease := map[], [], map[], map[];
    }

    /** Who should hold the claim next: the earliest in line, or the least recently served. */
    method Next(claim: Claim) returns (next: Option<Name>)
      requires Valid()
      ensures next == NextWaiter(policy, View(), claim)
    {
      var line := [];
      for i := 0 to |waiting|
        invariant line == WaitersOn(workloads, waiting[..i], claim)
      {
        assert waiting[..i + 1] == waiting[..i] + [waiting[i]];
        Safety.LineAppend(workloads, waiting[..i], waiting[i], claim);
        if workloads[waiting[i]].claim == claim {
          line := line + [waiting[i]];
        }
      }
      assert waiting[..|waiting|] == waiting;
      if |line| == 0 {
        return None;
      }
      if policy.Fifo? || |line| == 1 {
        return Some(line[0]);
      }
      var best := line[0];
      for i := 1 to |line|
        invariant best == LeastServed(line[..i], lastRelease)
      {
        assert line[..i + 1] == line[..i] + [line[i]];
        Safety.LeastServedAppend(line[..i], line[i], lastRelease);
        if Last(lastRelease, line[i]) < Last(lastRelease, best) {
          best := line[i];
        }
      }
      assert line[..|line|] == line;
      return Some(best);
    }

    method RegisterWorkload(name: Name, claim: Claim, connection: Option<nat>)
      requires Valid()
      modifies this
      ensures Valid() && View() == Register(old(View()), name, claim, connection)
      ensures workloads == old(workloads)[name := Workload(connection, claim, name in old(workloads) && old(workloads)[name].checkpointed, false)]
      ensures waiting == old(waiting) && running == old(running) && lastRelease == old(lastRelease)
    {
      if name !in workloads {
        workloads := workloads[name := Workload(connection, claim, false, false)];
      } else {
        workloads := workloads[name := workloads[name].(connection := connection, claim := claim, failed := false)];
      }
    }

    /** Takes the name out of the line and gives up whatever it holds. */
    method ClearWorkload(name: Name)
      requires Valid()
      modifies `waiting, `running
      ensures Valid() && View() == Clear(old(View()), name)
      ensures forall n :: n in waiting <==> n in old(waiting) && n != name
      ensures running == map c | c in old(running) && old(running)[c] != name :: old(running)[c]
    {
      Safety.RemoveContents(waiting, name);
      waiting := Remove(waiting, name);
      var held := running;
      var todo := held.Keys;
      while todo != {}
        modifies `running
        invariant todo <= held.Keys
        invariant running == map c | c in held && (c in todo || held[c] != name) :: held[c]
      {
        var c :| c in todo;
        todo := todo - {c};
        if held[c] == name {
          running := running - {c};
        }
      }
    }

    method AcquireEntry(name: Name, claim: Claim) returns (answer: Answer, inLine: bool)
      requires Valid()
      modifies this
      ensures Valid() && (View(), answer, inLine) == Acquire(policy, old(View()), name, claim)
      ensures !inLine <==> (name in old(workloads) && old(workloads)[name].failed) || name in old(waiting) ||
                           (claim in old(running) && old(running)[claim] == name)
      ensures !inLine ==> answer == Refused && waiting == old(waiting) && running == old(running)
      ensures inLine && answer == Waits ==> waiting == old(waiting) + [name] && running == old(running)
      ensures workloads == if name in old(workloads) then old(workloads) else old(workloads)[name := Workload(None, claim, false, false)]
    {
      if name !in workloads {
        workloads := workloads[name := Workload(None, claim, false, false)];
      }
      if workloads[name].failed {
        return Refused, false;
      }
      if name in waiting || (claim in running && running[claim] == name) {
        return Refused, false;
      }
      waiting := waiting + [name];
      inLine := true;
      answer := AcquireResume(name, claim);
    }

    /** The test that ends a wait, and the grant or refusal after it. */
    method AcquireResume(name: Name, claim: Claim) returns (answer: Answer)
      requires Valid()
      modifies this
      ensures Valid() && (View(), answer) == Resume(policy, old(View()), name, claim)
      ensures answer.Waits? <==> name in old(waiting) && (claim in old(running) || NextWaiter(policy, old(View()), claim) != Some(name))
      ensures answer.Refused? <==> name !in old(waiting) || (!answer.Waits? && old(workloads)[name].failed)
      ensures answer.Granted? ==> answer == Granted(old(workloads)[name].checkpointed) && running == old(running)[claim := name]
      ensures answer.Refused? ==> running == map c | c in old(running) && old(running)[c] != name :: old(running)[c]
      ensures workloads == old(workloads) && (forall n :: n in waiting <==> n in old(waiting) && (answer.Waits? || n != name))
    {
      var next := Next(claim);
      if name in waiting && (claim in running || next != Some(name)) {
        return Waits;
      }
      if name !in workloads || workloads[name].failed || name !in waiting {
        ClearWorkload(name);
        return Refused;
      }
      Safety.RemoveContents(waiting, name);
      waiting := Remove(waiting, name);
      running := running[claim := name];
      return Granted(workloads[name].checkpointed);
    }

    method WaitCancelled(name: Name)
      requires Valid()
      modifies `waiting
      ensures Valid() && View() == CancelWait(old(View()), name)
      ensures forall n :: n in waiting <==> n in old(waiting) && n != name
    {
      Safety.RemoveContents(waiting, name);
      waiting := Remove(waiting, name);
    }

    method AfterRestore(name: Name)
      requires Valid()
      modifies `workloads
      ensures Valid() && View() == SetCheckpointed(old(View()), name, false)
      ensures workloads == map n | n in old(workloads) ::
                if n == name then old(workloads)[n].(checkpointed := false) else old(workloads)[n]
    {
      if name in workloads {
        workloads := workloads[name := workloads[name].(checkpointed := false)];
      }
    }

    /** Whether a release may go on to its checkpoint; the grant is kept meanwhile. */
    method ReleaseEntry(name: Name, claim: Claim) returns (parking: bool)
      ensures parking <==> name in workloads && claim in running && running[claim] == name
    {
      parking := name in workloads && claim in running && running[claim] == name;
    }

    method ReleaseParked(name: Name, checkpointed: bool, now: nat)
      requires Valid()
      modifies this
      ensures Valid() && View() == Parked(old(View()), name, checkpointed, now)
      ensures workloads == map n | n in old(workloads) ::
                if n == name then old(workloads)[n].(checkpointed := checkpointed) else old(workloads)[n]
      ensures running == map c | c in old(running) && old(running)[c] != name :: old(running)[c]
      ensures lastRelease == old(lastRelease)[name := now] && forall n :: n in waiting <==> n in old(waiting) && n != name
    {
      if name in workloads {
        workloads := workloads[name := workloads[name].(checkpointed := checkpointed)];
      }
      lastRelease := lastRelease[name := now];
      ClearWorkload(name);
    }

    method ReleaseFaulted(name: Name)
      requires Valid()
      modifies `workloads
      ensures Valid() && View() == Faulted(old(View()), name)
      ensures workloads == map n | n in old(workloads) ::
                if n == name then old(workloads)[n].(failed := true, checkpointed := false) else old(workloads)[n]
    {
      if name in workloads {
        workloads := workloads[name := workloads[name].(failed := true, checkpointed := false)];
      }
    }

    method UnregisterWorkload(name: Name) returns (ok: bool)
      requires Valid()
      modifies this
      ensures Valid() && ok == (name in old(workloads))
      ensures View() == if ok then Unregister(old(View()), name) else old(View())
      ensures ok ==> workloads == old(workloads) - {name} && (forall n :: n in waiting <==> n in old(waiting) && n != name)
      ensures ok ==> running == map c | c in old(running) && old(running)[c] != name :: old(running)[c]
    {
      if name !in workloads {
        return false;
      }
      Safety.RemoveContents(waiting, name);
      ClearWorkload(name);
      workloads := workloads - {name};
      return true;
    }

    /** Every workload that came in over this connection loses its place, its grant and its checkpoint. */
    method ConnectionClosed(connection: nat)
      requires Valid()
      modifies this
      ensures Valid() && View() == Closed(old(View()), connection)
      ensures workloads == map n | n in old(workloads) ::
                if old(workloads)[n].connection == Some(connection)
                then Workload(None, old(workloads)[n].claim, false, true) else old(workloads)[n]
      ensures forall n :: n in waiting <==> n in old(waiting) && old(workloads)[n].connection != Some(connection)
      ensures running == map c | c in old(running) &&
                                 !(old(running)[c] in old(workloads) && old(workloads)[old(running)[c]].connection == Some(connection)) ::
                                 old(running)[c]
    {
      Safety.OutsideContents(waiting, On(View(), connection));
      ghost var before := View();
      ghost var done: set<Name> := {};
      var known := workloads;
      var todo := known.Keys;
      OutsideNobody(waiting);
      while todo != {}
        invariant todo <= known.Keys && workloads.Keys == known.Keys
        invariant forall n :: n in todo ==> workloads[n] == known[n]
        invariant done == set n | n in On(before, connection) && n !in todo
        invariant Valid() && View() == CloseNames(before, done)
      {
        var name :| name in todo;
        todo := todo - {name};
        if known[name].connection == Some(connection) {
          CloseOneMore(before, done, name);
          ClearWorkload(name);
          workloads := workloads[name := known[name].(connection := None, checkpointed := false, failed := true)];
          done := done + {name};
        }
      }
      assert done == On(before, connection);
    }
  }

  lemma CloseOneMore(m: Monitor, gone: set<Name>, name: Name)
    requires NoDup(m.waiting) && name in m.workloads
    ensures var cleared := Clear(CloseNames(m, gone), name);
            cleared.(workloads := cleared.workloads[name := m.workloads[name].(connection := None, checkpointed := false, failed := true)])
            == CloseNames(m, gone + {name})
  {
    RemoveAfterOutside(m.waiting, gone, name);
  }

  lemma {:induction false} OutsideNobody(names: seq<Name>)
    ensures Outside(names, {}) == names
  {
    if names == [] {
    } else {
      OutsideNobody(names[1..]);
    }
  }

  /** Removing names one by one is leaving them all out. */
  lemma {:induction false} RemoveAfterOutside(names: seq<Name>, gone: set<Name>, name: Name)
    requires NoDup(names)
    ensures Remove(Outside(names, gone), name) == Outside(names, gone + {name})
  {
    if names == [] {
    } else {
      var rest := Outside(names[1..], gone);
      assert [] + rest == rest && ([names[0]] + rest)[1..] == rest;
      RemoveAfterOutside(names[1..], gone, name);
      if names[0] == name {
        assert name !in names[1..];
        OutsideAbsent(names[1..], gone, name);
      }
    }
  }

  lemma {:induction false} OutsideAbsent(names: seq<Name>, gone: set<Name>, name: Name)
    requires name !in names
    ensures Outside(names, gone) == Outside(names, gone + {name})
    ensures Remove(Outside(names, gone), name) == Outside(names, gone)
  {
    if names == [] {
    } else {
      var rest := Outside(names[1..], gone);
      assert [] + rest == rest && ([names[0]] + rest)[1..] == rest && names[0] in names;
      OutsideAbsent(names[1..], gone, name);
    }
  }
}
