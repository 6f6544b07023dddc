/**
  The restorer behind the time slicer: it runs a tool on each of a workload's
  processes, and remembers which processes a successful checkpoint saved.
*/
module CheckpointRestorer {
  import opened TimeSlicer

  datatype Action = Lock | Save | Restore | Unlock

  datatype Restoration = Restored | NothingRecorded | RestoreFailed

  /** One action on each of some processes, in order. */
  function Each(action: Action, pids: seq<nat>): seq<(Action, nat)>
  {
    seq(|pids|, i requires 0 <= i < |pids| => (action, pids[i]))
  }

  class CudaCheckpointRestorer {
    var checkpointedPids: map<Name, seq<nat>>
    // Every call of the tool so far.
    ghost var calls: seq<(Action, nat)>

    constructor ()
      ensures checkpointedPids == map[] && calls == []
    {
      checkpointedPids := map[];
      calls := [];
    }

    /** Runs one action on every process, stopping at the first failure. */
    method RunAll(action: Action, pids: seq<nat>, works: (Action, nat) -> bool) returns (ok: bool)
      modifies `calls
      ensures ok <==> forall pid :: pid in pids ==> works(action, pid)
      ensures ok ==> calls == old(calls) + Each(action, pids)
      ensures !ok ==> exists k :: 0 <= k < |pids| && !works(action, pids[k]) && calls == old(calls) + Each(action, pids[..k + 1])
    {
      for i := 0 to |pids|
        invariant forall k :: 0 <= k < i ==> works(action, pids[k])
        invariant calls == old(calls) + Each(action, pids[..i])
      {
        assert Each(action, pids[..i + 1]) == Each(action, pids[..i]) + [(action, pids[i])];
        calls := calls + [(action, pids[i])];
        if !works(action, pids[i]) {
          assert pids[i] in pids;
          return false;
        }
      }
      assert pids[..|pids|] == pids;
      return true;
    }

    /** Locks all processes, then saves all; only a complete success is recorded. */
    method Checkpoint(name: Name, pids: seq<nat>, works: (Action, nat) -> bool) returns (outcome: TimeSlicer.Checkpoint)
      modifies this
      ensures outcome.NothingThere? <==> pids == []
      ensures outcome.Saved? <==> pids != [] && forall pid :: pid in pids ==> works(Lock, pid) && works(Save, pid)
      ensures outcome.Saved? ==> outcome.pids == pids
      ensures checkpointedPids ==
        match outcome
        case NothingThere => old(checkpointedPids) - {name}
        case Saved(saved) => old(checkpointedPids)[name := saved]
        case Failed => old(checkpointedPids)
      ensures outcome.NothingThere? ==> calls == old(calls)
      ensures outcome.Saved? ==> calls == old(calls) + Each(Lock, pids) + Each(Save, pids)
    {
      if |pids| == 0 {
        checkpointedPids := checkpointedPids - {name};
        return NothingThere;
      }
      var locked := RunAll(Lock, pids, works);
      if !locked {
        return Failed;
      }
      var saved := RunAll(Save, pids, works);
      if !saved {
        return Failed;
      }
      checkpointedPids := checkpointedPids[name := pids];
      return Saved(pids);
    }

    /** Restores and unlocks the recorded processes; the record goes only when all of it worked. */
    method RestoreWorkload(name: Name, works: (Action, nat) -> bool) returns (outcome: Restoration)
      modifies this
      ensures outcome == NothingRecorded <==> name !in old(checkpointedPids) || old(checkpointedPids)[name] == []
      ensures outcome == Restored <==>
        name in old(checkpointedPids) && old(checkpointedPids)[name] != [] &&
        forall pid :: pid in old(checkpointedPids)[name] ==> works(Restore, pid) && works(Unlock, pid)
      ensures checkpointedPids == if outcome == Restored then old(checkpointedPids) - {name} else old(checkpointedPids)
      ensures outcome == NothingRecorded ==> calls == old(calls)
      ensures outcome == Restored ==>
                calls == old(calls) + Each(Restore, old(checkpointedPids)[name]) + Each(Unlock, old(checkpointedPids)[name])
    {
      if name !in checkpointedPids || |checkpointedPids[name]| == 0 {
        return NothingRecorded;
      }
      var pids := checkpointedPids[name];
      var restored := RunAll(Restore, pids, works);
      if !restored {
        return RestoreFailed;
      }
      var unlocked := RunAll(Unlock, pids, works);
      if !unlocked {
        return RestoreFailed;
      }
      checkpointedPids := checkpointedPids - {name};
      return Restored;
    }
  }
}
