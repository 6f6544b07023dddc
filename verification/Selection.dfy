/**
  What selecting a claim means, in the fleet's own fields and without the
  predicates by which it is computed.
*/
module Selection {
  import opened Wrappers
  import opened Placement

  // ---------- the order of names ----------

  /** Names compare by their first difference, and a prefix comes before what it starts. */
  lemma {:induction false} NameOrder(a: string, b: string)
    ensures StringLess(a, b) <==>
            exists k :: 0 <= k <= |a| && k < |b| && a[..k] == b[..k] && (k == |a| || a[k] < b[k])
  {
    if a == "" || b == "" || a[0] != b[0] {
      assert a[..0] == b[..0];
      forall k | 0 < k <= |a| && k < |b| ensures a[..k] != b[..k] {
        assert a[..k][0] == a[0] && b[..k][0] == b[0];
      }
    } else {
      NameOrder(a[1..], b[1..]);
      if k :| 0 <= k <= |a[1..]| && k < |b[1..]| && a[1..][..k] == b[1..][..k] && (k == |a[1..]| || a[1..][k] < b[1..][k]) {
        assert a[..k + 1] == [a[0]] + a[1..][..k] && b[..k + 1] == [b[0]] + b[1..][..k];
        assert a[..k + 1] == b[..k + 1];
      }
      if k :| 0 <= k <= |a| && k < |b| && a[..k] == b[..k] && (k == |a| || a[k] < b[k]) {
        assert k > 0;
        assert a[1..][..k - 1] == a[..k][1..] && b[1..][..k - 1] == b[..k][1..];
      }
    }
  }

  // ---------- who may join ----------

  lemma OneDevice(memory: nat, deviceBytes: int)
    requires deviceBytes > 0
    ensures DevicesFor(memory, deviceBytes) == 1 <==> memory <= deviceBytes
  {
    DevicesForIsLeast(memory, deviceBytes, 1);
  }

  /** The devices a worker takes on a node: the fewest that hold its memory, if it may drive and the node has that many. */
  lemma DevicesOnMeans(req: Request, n: Node)
    ensures var d := req.DevicesOn(n);
            d > 0 ==> n.deviceMemory > 0 && d <= n.deviceCount && (d == 1 || d <= req.maxDevices) &&
                      d * n.deviceMemory >= req.memory && (d > 1 ==> (d - 1) * n.deviceMemory < req.memory)
    ensures req.DevicesOn(n) <= 0 ==>
              n.deviceMemory <= 0 ||
              forall m :: 1 <= m <= n.deviceCount && (m == 1 || m <= req.maxDevices) ==> m * n.deviceMemory < req.memory
  {
    if n.deviceMemory > 0 {
      var count := DevicesFor(req.memory, n.deviceMemory);
      DevicesForIsLeast(req.memory, n.deviceMemory, count);
      if count > 1 {
        DevicesForIsLeast(req.memory, n.deviceMemory, count - 1);
      }
      forall m | 1 <= m <= n.deviceCount && (m == 1 || m <= req.maxDevices) && req.DevicesOn(n) <= 0
        ensures m * n.deviceMemory < req.memory
      {
        DevicesForIsLeast(req.memory, n.deviceMemory, m);
      }
    }
  }

  /** What each worker on a claim is booked for. */
  function WorkerBytes(booked: map<string, Booking>): map<string, int>
  {
    map w | w in booked :: booked[w].hostBytes as int
  }

  /** The memory a node is booked for: its reserved bytes and those of every worker on every claim there. */
  lemma HostBytesMeans(claims: Claims, node: Node) returns (perClaim: map<string, int>)
    ensures HostBytesOn(claims, node) == node.hostReserved + Sum(perClaim)
    ensures forall c :: c in perClaim <==> c in claims && claims[c].node == node.name
    ensures forall c :: c in perClaim ==> perClaim[c] == Sum(WorkerBytes(claims[c].booked))
  {
    perClaim := map c | c in claims && c in claims.Keys && claims[c].node == node.name :: HostBytes(claims[c].booked);
    forall c | c in perClaim ensures perClaim[c] == Sum(WorkerBytes(claims[c].booked)) {
      var booked := claims[c].booked;
      assert (map w | w in booked && w in booked.Keys :: booked[w].hostBytes as int) == WorkerBytes(booked);
    }
  }

  /** Whether a worker may join a claim. */
  lemma EligibleMeans(req: Request, nodes: Nodes, claims: Claims, c: ClaimState)
    ensures Eligible(req, nodes, claims, c) <==>
              && c.booked != map[] && (forall w :: w in c.booked ==> c.booked[w].shareable)
              && c.deviceCount == 1 && c.node != "" && c.node in nodes
              && (var n := nodes[c.node];
                  && req.role in n.roles
                  && n.deviceCount >= 1 && 0 < n.deviceMemory && req.memory <= n.deviceMemory
                  && (n.hostMemory > 0 ==> HostBytesOn(claims, n) + req.hostRequest <= n.hostMemory))
  {
    if c.node in nodes && nodes[c.node].deviceMemory > 0 {
      OneDevice(req.memory, nodes[c.node].deviceMemory);
    }
  }

  // ---------- who is joined ----------

  /**
    The selected claim is one the worker may join, and no other such claim has
    fewer owners, or as many and fewer workers, or as many of both and an
    earlier name.
  */
  lemma SelectionIsLeastContended(req: Request, nodes: Nodes, claims: Claims, best: string, other: string)
    requires FleetOk(nodes, claims) && IsSelection(req, nodes, claims, Some(best))
    requires other in claims && other != best && Eligible(req, nodes, claims, claims[other])
    ensures req.shareable && best in claims && Eligible(req, nodes, claims, claims[best])
    ensures var a, b := claims[best].booked, claims[other].booked;
            var ownersA, ownersB := (set w | w in a :: a[w].owner), (set w | w in b :: b[w].owner);
            && |ownersA| <= |ownersB|
            && (|ownersA| == |ownersB| ==> |a| <= |b|)
            && (|ownersA| == |ownersB| && |a| == |b| ==>
                  exists k :: 0 <= k <= |best| && k < |other| && best[..k] == other[..k] && (k == |best| || best[k] < other[k]))
  {
    NameOrder(claims[best].name, claims[other].name);
    var a, b := claims[best].booked, claims[other].booked;
    assert claims[best].Owners() == (set w | w in a :: a[w].owner) && claims[other].Owners() == (set w | w in b :: b[w].owner);
  }

  /** No claim is selected exactly when the worker shares with nobody or may join none of them. */
  lemma NoSelectionMeans(req: Request, nodes: Nodes, claims: Claims, best: Option<string>)
    requires IsSelection(req, nodes, claims, best)
    ensures best.None? <==> !req.shareable || forall c :: c in claims ==> !Eligible(req, nodes, claims, claims[c])
  {
  }
}
