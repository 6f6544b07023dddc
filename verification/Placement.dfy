/**
  The scheduling decision: how many devices of a pool a worker needs, how much
  host memory a node already carries, and which claim a worker should join.
*/
module Placement {
  import opened Wrappers

  const GIB: int := 0x4000_0000

  /** Whole GiB, rounded up. */
  function CeilGiB(bytes: int): (g: int)
    ensures (g - 1) * 0x4000_0000 < bytes <= g * 0x4000_0000
  {
    (bytes + GIB - 1) / GIB
  }

  datatype Node = Node(
    name: string,
    deviceCount: int,
    deviceMemory: int,
    hostMemory: int,
    hostReserved: int,
    roles: set<string>)
  {
    predicate Accepts(role: string)
    {
      role in roles
    }
  }

  datatype Booking = Booking(owner: string, hostBytes: nat, shareable: bool)

  datatype Request = Request(
    shareable: bool,
    role: string,
    memory: nat,
    owner: string,
    workerID: string,
    maxDevices: int,
    hostRequest: nat)
  {
    function Widest(): (w: int)
      ensures w >= 1 && w >= maxDevices && (w == 1 || w == maxDevices)
    {
      if maxDevices > 1 then maxDevices else 1
    }

    function OwnerKey(): (key: string)
      ensures key != "" ==> key == owner || (owner == "" && key == workerID)
      ensures key == "" ==> owner == "" && workerID == ""
    {
      if owner != "" then owner else workerID
    }

    /** How many of a node's devices the worker takes there, 0 if the pool cannot hold it. */
    function DevicesOn(n: Node): int
    {
      if n.deviceMemory <= 0 then 0
      else
        var count := DevicesFor(memory, n.deviceMemory);
        if count > Widest() || count > n.deviceCount then 0 else count
    }

    /** The worker's share of each device, rounded up. */
    function PerDeviceBytes(count: int): int
      requires count >= 1
    {
      (memory + count - 1) / count
    }
  }

  /** How many devices of one size hold the memory: ceiling division, at least one. */
  function DevicesFor(memory: nat, deviceBytes: int): int
    requires deviceBytes > 0
  {
    var count := (memory + deviceBytes - 1) / deviceBytes;
    if count > 1 then count else 1
  }

  lemma CeilDiv(a: nat, b: nat)
    requires b > 0
    ensures ((a + b - 1) / b) * b >= a
    ensures a > 0 ==> ((a + b - 1) / b - 1) * b < a
  {
    var q, r := (a + b - 1) / b, (a + b - 1) % b;
    assert q * b + r == a + b - 1 && 0 <= r < b;
    assert (q - 1) * b == q * b - b;
  }

  lemma TimesMonotonic(a: int, b: int, c: int)
    requires a <= b && c >= 0
    ensures a * c <= b * c
  {
  }

  /** DevicesFor is the least positive number of devices that holds the memory. */
  lemma DevicesForIsLeast(memory: nat, deviceBytes: int, n: int)
    requires deviceBytes > 0 && n >= 1
    ensures DevicesFor(memory, deviceBytes) >= 1
    ensures n * deviceBytes >= memory <==> n >= DevicesFor(memory, deviceBytes)
  {
    CeilDiv(memory, deviceBytes);
    var count := (memory + deviceBytes - 1) / deviceBytes;
    if n >= count {
      TimesMonotonic(count, n, deviceBytes);
    } else {
      TimesMonotonic(n, count - 1, deviceBytes);
    }
  }

  /** Spread over the devices it needs, the worker's share fits one device and the shares cover it. */
  lemma ShareFits(req: Request, deviceBytes: int)
    requires deviceBytes > 0
    ensures var count := DevicesFor(req.memory, deviceBytes);
            count >= 1 && req.PerDeviceBytes(count) <= deviceBytes && count * req.PerDeviceBytes(count) >= req.memory
  {
    var count := DevicesFor(req.memory, deviceBytes);
    DevicesForIsLeast(req.memory, deviceBytes, count);
    CeilDiv(req.memory, count);
    var share := req.PerDeviceBytes(count);
    if share > deviceBytes {
      TimesMonotonic(deviceBytes, share - 1, count);
    }
  }

  // ---------- sums over maps ----------

  ghost function Sum<K(!new)>(m: map<K, int>): int
    decreases |m|
  {
    if m == map[] then 0
    else
      var k :| k in m;
      m[k] + Sum(m - {k})
  }

  lemma {:induction false} SumRemove<K(!new)>(m: map<K, int>, k: K)
    requires k in m
    ensures Sum(m) == m[k] + Sum(m - {k})
    decreases |m|
  {
    var first :| first in m && Sum(m) == m[first] + Sum(m - {first});
    if first == k {
    } else {
      SumRemove(m - {first}, k);
      SumRemove(m - {k}, first);
      assert m - {first} - {k} == m - {k} - {first};
    }
  }

  lemma SumAdd<K(!new)>(m: map<K, int>, k: K, v: int)
    requires k !in m
    ensures Sum(m[k := v]) == Sum(m) + v
  {
    SumRemove(m[k := v], k);
    assert m[k := v] - {k} == m;
  }

  lemma SumUpdate<K(!new)>(m: map<K, int>, k: K, v: int)
    requires k in m
    ensures Sum(m[k := v]) == Sum(m) - m[k] + v
  {
    SumRemove(m, k);
    SumRemove(m[k := v], k);
    assert m[k := v] - {k} == m - {k};
  }

  // ---------- claims and the fleet ----------

  /** A claim with everything sitting on it, as a value. */
  datatype ClaimState = ClaimState(name: string, deviceCount: int, node: string, booked: map<string, Booking>)
  {
    /** Every worker on it can suspend, and there is at least one. */
    predicate Shareable()
    {
      booked != map[] && forall w :: w in booked ==> booked[w].shareable
    }

    function Owners(): set<string>
    {
      set w | w in booked :: booked[w].owner
    }
  }

  ghost function BytesOf(booked: map<string, Booking>, done: set<string>): int
  {
    Sum(map w | w in booked && w in done :: booked[w].hostBytes as int)
  }

  ghost function HostBytes(booked: map<string, Booking>): int
  {
    BytesOf(booked, booked.Keys)
  }

  lemma BytesOfNext(booked: map<string, Booking>, done: set<string>, w: string)
    requires w in booked && w !in done
    ensures BytesOf(booked, done + {w}) == BytesOf(booked, done) + booked[w].hostBytes
  {
    var before := map k | k in booked && k in done :: booked[k].hostBytes as int;
    var after := map k | k in booked && k in done + {w} :: booked[k].hostBytes as int;
    assert after == before[w := booked[w].hostBytes as int];
    SumAdd(before, w, booked[w].hostBytes as int);
  }

  lemma BytesOfNothing(booked: map<string, Booking>, done: set<string>)
    requires done == {}
    ensures BytesOf(booked, done) == 0
  {
  }

  /** What one worker weighs on a claim. */
  function Footprint(booked: map<string, Booking>, w: string): int
  {
    if w in booked then booked[w].hostBytes else 0
  }

  /** One booking more or changed: the total moves by the difference of that worker's footprints. */
  lemma BytesAfterBook(booked: map<string, Booking>, w: string, b: Booking)
    ensures HostBytes(booked[w := b]) == HostBytes(booked) - Footprint(booked, w) + b.hostBytes
  {
    var before := map k | k in booked && k in booked.Keys :: booked[k].hostBytes as int;
    var next := booked[w := b];
    var after := map k | k in next && k in next.Keys :: next[k].hostBytes as int;
    assert after == before[w := b.hostBytes as int];
    if w in booked {
      SumUpdate(before, w, b.hostBytes as int);
    } else {
      SumAdd(before, w, b.hostBytes as int);
    }
  }

  lemma BytesAfterRelease(booked: map<string, Booking>, w: string)
    ensures HostBytes(booked - {w}) == HostBytes(booked) - Footprint(booked, w)
  {
    if w in booked {
      BytesAfterBook(booked - {w}, w, booked[w]);
      assert (booked - {w})[w := booked[w]] == booked;
    } else {
      assert booked - {w} == booked;
    }
  }

  type Claims = map<string, ClaimState>

  /** What the claims named in some set put on a node. */
  ghost function HostBytesOf(claims: Claims, done: set<string>, node: string): int
  {
    Sum(map c | c in claims && c in done && claims[c].node == node :: HostBytes(claims[c].booked))
  }

  /** Everything a node's memory is already spoken for: reserved, and every worker on every claim there. */
  ghost function HostBytesOn(claims: Claims, node: Node): int
  {
    node.hostReserved + HostBytesOf(claims, claims.Keys, node.name)
  }

  lemma HostBytesOfNext(claims: Claims, done: set<string>, c: string, node: string)
    requires c in claims && c !in done
    ensures HostBytesOf(claims, done + {c}, node) ==
            HostBytesOf(claims, done, node) + if claims[c].node == node then HostBytes(claims[c].booked) else 0
  {
    var before := map k | k in claims && k in done && claims[k].node == node :: HostBytes(claims[k].booked);
    var after := map k | k in claims && k in done + {c} && claims[k].node == node :: HostBytes(claims[k].booked);
    if claims[c].node == node {
      assert after == before[c := HostBytes(claims[c].booked)];
      SumAdd(before, c, HostBytes(claims[c].booked));
    } else {
      assert after == before;
    }
  }

  lemma HostBytesOfNextEverywhere(claims: Claims, done: set<string>, c: string)
    requires c in claims && c !in done
    ensures forall n :: HostBytesOf(claims, done + {c}, n) ==
                        HostBytesOf(claims, done, n) + if claims[c].node == n then HostBytes(claims[c].booked) else 0
  {
    forall n ensures HostBytesOf(claims, done + {c}, n) ==
                     HostBytesOf(claims, done, n) + if claims[c].node == n then HostBytes(claims[c].booked) else 0 {
      HostBytesOfNext(claims, done, c, n);
    }
  }

  class Claim {
    const name: string
    const deviceCount: int
    const node: string
    var booked: map<string, Booking>

    function State(): ClaimState
      reads this
    {
      ClaimState(name, deviceCount, node, booked)
    }

    constructor (name: string, deviceCount: int, node: string)
      ensures State() == ClaimState(name, deviceCount, node, map[])
    {
      this.name, this.deviceCount, this.node, this.booked := name, deviceCount, node, map[];
    }

    /** One more worker, or a worker's footprint replaced. */
    method Book(workerID: string, owner: string, hostBytes: nat, shareable: bool)
      modifies this
      ensures State() == old(State()).(booked := old(booked)[workerID := Booking(owner, hostBytes, shareable)])
      ensures HostBytes(booked) == old(HostBytes(booked)) - old(Footprint(booked, workerID)) + hostBytes
    {
      BytesAfterBook(booked, workerID, Booking(owner, hostBytes, shareable));
      booked := booked[workerID := Booking(owner, hostBytes, shareable)];
    }

    method Release(workerID: string)
      modifies this
      ensures State() == old(State()).(booked := old(booked) - {workerID})
      ensures HostBytes(booked) == old(HostBytes(booked)) - old(Footprint(booked, workerID))
    {
      BytesAfterRelease(booked, workerID);
      booked := booked - {workerID};
    }

    method Shareable() returns (ok: bool)
      ensures ok == State().Shareable()
    {
      if booked == map[] {
        return false;
      }
      var todo := booked.Keys;
      while todo != {}
        invariant todo <= booked.Keys
        invariant forall w :: w in booked && w !in todo ==> booked[w].shareable
      {
        var w :| w in todo;
        if !booked[w].shareable {
          return false;
        }
        todo := todo - {w};
      }
      ok := true;
    }

    method Owners() returns (count: nat)
      ensures count == |State().Owners()|
    {
      var owners, todo := {}, booked.Keys;
      while todo != {}
        invariant todo <= booked.Keys
        invariant owners == set w | w in booked && w !in todo :: booked[w].owner
      {
        var w :| w in todo;
        owners := owners + {booked[w].owner};
        todo := todo - {w};
      }
      assert owners == State().Owners();
      count := |owners|;
    }
  }

  // ---------- selecting a claim ----------

  type Nodes = map<string, Node>

  /** Go compares strings character by character; a prefix comes first. */
  predicate StringLess(a: string, b: string)
  {
    if b == "" then false
    else if a == "" then true
    else if a[0] != b[0] then a[0] < b[0]
    else StringLess(a[1..], b[1..])
  }

  lemma {:induction false} StringsCompare(a: string, b: string)
    ensures StringLess(a, b) || StringLess(b, a) || a == b
    ensures !(StringLess(a, b) && StringLess(b, a)) && !StringLess(a, a)
  {
    if a == "" || b == "" || a[0] != b[0] {
    } else {
      StringsCompare(a[1..], b[1..]);
      assert a == [a[0]] + a[1..] && b == [b[0]] + b[1..];
    }
    StringIrreflexive(a);
  }

  lemma {:induction false} StringIrreflexive(a: string)
    ensures !StringLess(a, a)
  {
    if a == "" {
    } else {
      StringIrreflexive(a[1..]);
    }
  }

  lemma {:induction false} StringsTransitive(a: string, b: string, c: string)
    requires StringLess(a, b) && StringLess(b, c)
    ensures StringLess(a, c)
  {
    if a == "" || a[0] != b[0] || b[0] != c[0] {
    } else {
      StringsTransitive(a[1..], b[1..], c[1..]);
    }
  }

  /** Fewer owners first, then fewer workers, then the name. */
  predicate ClaimLess(a: ClaimState, b: ClaimState)
  {
    if |a.Owners()| != |b.Owners()| then |a.Owners()| < |b.Owners()|
    else if |a.booked| != |b.booked| then |a.booked| < |b.booked|
    else StringLess(a.name, b.name)
  }

  /** A strict total order on claims of distinct names. */
  lemma ClaimLessIsTotal(a: ClaimState, b: ClaimState, c: ClaimState)
    ensures !ClaimLess(a, a) && !(ClaimLess(a, b) && ClaimLess(b, a))
    ensures a.name != b.name ==> ClaimLess(a, b) || ClaimLess(b, a)
    ensures ClaimLess(a, b) && ClaimLess(b, c) ==> ClaimLess(a, c)
  {
    StringsCompare(a.name, b.name);
    StringIrreflexive(a.name);
    if StringLess(a.name, b.name) && StringLess(b.name, c.name) {
      StringsTransitive(a.name, b.name, c.name);
    }
  }

  /** Claims and nodes are kept under their own names, and no node's name is empty. */
  ghost predicate FleetOk(nodes: Nodes, claims: Claims)
  {
    && "" !in nodes
    && (forall n :: n in nodes ==> nodes[n].name == n)
    && (forall c :: c in claims ==> claims[c].name == c)
  }

  /** Every check but host memory: shareable, allocated, one device, and a node that takes the worker on one. */
  predicate Joinable(req: Request, nodes: Nodes, c: ClaimState)
  {
    && c.Shareable() && c.node != "" && c.node in nodes && nodes[c.node].Accepts(req.role)
    && c.deviceCount == 1 && req.DevicesOn(nodes[c.node]) == 1
    && req.memory <= nodes[c.node].deviceMemory
  }

  /** A node that reports no memory skips the host check. */
  ghost predicate Eligible(req: Request, nodes: Nodes, claims: Claims, c: ClaimState)
  {
    && Joinable(req, nodes, c)
    && (nodes[c.node].hostMemory > 0 ==>
          HostBytesOn(claims, nodes[c.node]) + req.hostRequest <= nodes[c.node].hostMemory)
  }

  /** The one answer: the least eligible claim, or none when the worker cannot share or nothing is eligible. */
  ghost predicate IsSelection(req: Request, nodes: Nodes, claims: Claims, best: Option<string>)
  {
    if best.None? then req.shareable ==> forall c :: c in claims ==> !Eligible(req, nodes, claims, claims[c])
    else
      && req.shareable && best.value in claims && Eligible(req, nodes, claims, claims[best.value])
      && forall c :: c in claims && c != best.value && Eligible(req, nodes, claims, claims[c]) ==>
                       ClaimLess(claims[best.value], claims[c])
  }

  /** So the answer does not depend on the order in which the claims were visited. */
  lemma SelectionIsUnique(req: Request, nodes: Nodes, claims: Claims, a: Option<string>, b: Option<string>)
    requires IsSelection(req, nodes, claims, a) && IsSelection(req, nodes, claims, b)
    ensures a == b
  {
    if a.Some? && b.Some? && a != b {
      ClaimLessIsTotal(claims[a.value], claims[b.value], claims[a.value]);
    }
  }

  // ---------- booking the selected claim ----------

  function Booked(c: ClaimState, req: Request): ClaimState
  {
    c.(booked := c.booked[req.workerID := Booking(req.OwnerKey(), req.hostRequest, req.shareable)])
  }

  /** A worker booked again replaces its own footprint. */
  lemma BytesAfterBooking(c: ClaimState, req: Request)
    ensures HostBytes(Booked(c, req).booked) == HostBytes(c.booked) + req.hostRequest -
              (if req.workerID in c.booked then c.booked[req.workerID].hostBytes else 0)
  {
    BytesAfterBook(c.booked, req.workerID, Booking(req.OwnerKey(), req.hostRequest, req.shareable));
  }

  lemma NodeBytesAfterUpdate(claims: Claims, c: string, x: ClaimState, node: Node)
    requires c in claims && x.node == claims[c].node
    ensures HostBytesOn(claims[c := x], node) == HostBytesOn(claims, node) +
              (if x.node == node.name then HostBytes(x.booked) - HostBytes(claims[c].booked) else 0)
  {
    var claims' := claims[c := x];
    var before := map k | k in claims && k in claims.Keys && claims[k].node == node.name :: HostBytes(claims[k].booked);
    var after := map k | k in claims' && k in claims'.Keys && claims'[k].node == node.name :: HostBytes(claims'[k].booked);
    if x.node == node.name {
      assert after == before[c := HostBytes(x.booked)];
      SumUpdate(before, c, HostBytes(x.booked));
    } else {
      assert after == before;
    }
  }

  /** Booking the selected claim keeps its node within its memory and leaves every other node as it was. */
  lemma BookingFits(req: Request, nodes: Nodes, claims: Claims, best: string, n: string)
    requires FleetOk(nodes, claims) && IsSelection(req, nodes, claims, Some(best)) && n in nodes
    ensures best in claims && claims[best].node in nodes
    ensures var claims' := claims[best := Booked(claims[best], req)];
            if n == claims[best].node
            then nodes[n].hostMemory > 0 ==> HostBytesOn(claims', nodes[n]) <= nodes[n].hostMemory
            else HostBytesOn(claims', nodes[n]) == HostBytesOn(claims, nodes[n])
  {
    BytesAfterBooking(claims[best], req);
    NodeBytesAfterUpdate(claims, best, Booked(claims[best], req), nodes[n]);
  }

  function Released(c: ClaimState, w: string): ClaimState
  {
    c.(booked := c.booked - {w})
  }

  /**
    Releasing frees exactly the worker's bytes on the claim's node and nothing
    elsewhere; a worker that was not there before it was booked leaves no trace.
  */
  lemma ReleaseUndoesBooking(req: Request, claims: Claims, c: string, node: Node)
    requires c in claims
    ensures var booked := claims[c := Booked(claims[c], req)];
            var released := claims[c := Released(Booked(claims[c], req), req.workerID)];
            && HostBytesOn(released, node) == HostBytesOn(booked, node) - (if claims[c].node == node.name then req.hostRequest else 0)
            && (released == claims <==> req.workerID !in claims[c].booked)
  {
    var b := Booked(claims[c], req);
    var booked, released := claims[c := b], claims[c := Released(b, req.workerID)];
    BytesAfterRelease(b.booked, req.workerID);
    NodeBytesAfterUpdate(booked, c, Released(b, req.workerID), node);
    assert booked[c := Released(b, req.workerID)] == released;
    assert req.workerID !in released[c].booked;
    if req.workerID !in claims[c].booked {
      assert Released(b, req.workerID).booked == claims[c].booked;
    }
  }

  // ---------- the fleet as it runs ----------

  function Get(m: map<string, int>, k: string): int
  {
    if k in m then m[k] else 0
  }

  /** Adds a claim's bookings, one by one, to its node's entry. */
  method AddBookings(hostByNode: map<string, int>, node: string, booked: map<string, Booking>) returns (r: map<string, int>)
    ensures forall k :: Get(r, k) == Get(hostByNode, k) + if k == node then HostBytes(booked) else 0
  {
    r := hostByNode;
    var todo := booked.Keys;
    ghost var done: set<string> := {};
    BytesOfNothing(booked, done);
    while todo != {}
      invariant todo + done == booked.Keys && todo !! done
      invariant forall k :: Get(r, k) == Get(hostByNode, k) + if k == node then BytesOf(booked, done) else 0
    {
      var w :| w in todo;
      BytesOfNext(booked, done, w);
      r := r[node := Get(r, node) + booked[w].hostBytes];
      todo, done := todo - {w}, done + {w};
    }
  }

  /** A claim less than the best so far is less than everything the best was less than. */
  lemma LessChain(claims: Claims, c: string, best: string)
    requires c in claims && best in claims && claims[c].name == c && claims[best].name == best
    ensures c != best ==> ClaimLess(claims[c], claims[best]) || ClaimLess(claims[best], claims[c])
    ensures forall d :: d in claims && ClaimLess(claims[c], claims[best]) && ClaimLess(claims[best], claims[d]) ==>
                          ClaimLess(claims[c], claims[d])
  {
    ClaimLessIsTotal(claims[c], claims[best], claims[c]);
    forall d | d in claims && ClaimLess(claims[c], claims[best]) && ClaimLess(claims[best], claims[d])
      ensures ClaimLess(claims[c], claims[d])
    {
      ClaimLessIsTotal(claims[c], claims[best], claims[d]);
    }
  }

  /** The least eligible claim among those seen so far. */
  ghost predicate IsBestOf(req: Request, nodes: Nodes, claims: Claims, seen: set<string>, best: Option<string>)
  {
    && (best.Some? ==> best.value in seen && best.value in claims && Eligible(req, nodes, claims, claims[best.value]))
    && forall c :: c in seen && c in claims && Eligible(req, nodes, claims, claims[c]) ==>
         best.Some? && (c == best.value || ClaimLess(claims[best.value], claims[c]))
  }

  lemma BestNext(req: Request, nodes: Nodes, claims: Claims, seen: set<string>, c: string, best: Option<string>, ok: bool, less: bool)
    requires FleetOk(nodes, claims) && IsBestOf(req, nodes, claims, seen, best) && c in claims && c !in seen
    requires ok <==> Eligible(req, nodes, claims, claims[c])
    requires ok && best.Some? ==> less == ClaimLess(claims[c], claims[best.value])
    ensures IsBestOf(req, nodes, claims, seen + {c}, if ok && (best.None? || less) then Some(c) else best)
  {
    if ok && best.Some? {
      LessChain(claims, c, best.value);
    }
  }

  lemma BestOfAll(req: Request, nodes: Nodes, claims: Claims, seen: set<string>, best: Option<string>)
    requires req.shareable && seen == claims.Keys && IsBestOf(req, nodes, claims, seen, best)
    ensures IsSelection(req, nodes, claims, best)
  {
  }

  class Fleet {
    var nodes: Nodes
    var claims: map<string, Claim>

    ghost function States(): Claims
      reads this, claims.Values
    {
      map c | c in claims :: claims[c].State()
    }

    /** The per-node sum, one node at a time. */
    method NodeHostBytes(node: Node) returns (total: int)
      ensures total == HostBytesOn(States(), node)
    {
      total := node.hostReserved;
      var todo := claims.Keys;
      ghost var done: set<string> := {};
      while todo != {}
        invariant todo + done == claims.Keys && todo !! done
        invariant total == node.hostReserved + HostBytesOf(States(), done, node.name)
      {
        var c :| c in todo;
        HostBytesOfNext(States(), done, c, node.name);
        if claims[c].node == node.name {
          var added := AddBookings(map[], node.name, claims[c].booked);
          total := total + Get(added, node.name);
        }
        todo, done := todo - {c}, done + {c};
      }
      assert States().Keys == done;
    }

    /** The same sums for all nodes in one pass over the claims. */
    method HostByNode(ghost states: Claims) returns (hostByNode: map<string, int>)
      requires states == States() && FleetOk(nodes, states)
      ensures forall n :: n in nodes ==> Get(hostByNode, n) == HostBytesOn(states, nodes[n])
    {
      hostByNode := map n | n in nodes :: nodes[n].hostReserved;
      ghost var reserved := hostByNode;
      var todo := claims.Keys;
      ghost var done: set<string> := {};
      while todo != {}
        invariant todo + done == claims.Keys && todo !! done
        invariant forall n :: n != "" ==> Get(hostByNode, n) == Get(reserved, n) + HostBytesOf(states, done, n)
      {
        var c :| c in todo;
        HostBytesOfNextEverywhere(states, done, c);
        if claims[c].node != "" {
          hostByNode := AddBookings(hostByNode, claims[c].node, claims[c].booked);
        }
        todo, done := todo - {c}, done + {c};
      }
      assert states.Keys == done;
    }

    method Less(a: Claim, b: Claim) returns (less: bool)
      ensures less == ClaimLess(a.State(), b.State())
    {
      var ownersA := a.Owners();
      var ownersB := b.Owners();
      if ownersA != ownersB {
        return ownersA < ownersB;
      }
      if |a.booked| != |b.booked| {
        return |a.booked| < |b.booked|;
      }
      less := StringLess(a.name, b.name);
    }

    method IsEligible(req: Request, claim: Claim, hostByNode: map<string, int>, ghost states: Claims) returns (ok: bool)
      requires FleetOk(nodes, states)
      requires forall n :: n in nodes ==> Get(hostByNode, n) == HostBytesOn(states, nodes[n])
      ensures ok <==> Eligible(req, nodes, states, claim.State())
    {
      var shareable := claim.Shareable();
      if !shareable || claim.node == "" || claim.node !in nodes || !nodes[claim.node].Accepts(req.role) {
        return false;
      }
      var node := nodes[claim.node];
      if claim.deviceCount != 1 || req.DevicesOn(node) != 1 {
        return false;
      }
      if req.memory > node.deviceMemory {
        return false;
      }
      if node.hostMemory > 0 && Get(hostByNode, node.name) + req.hostRequest > node.hostMemory {
        return false;
      }
      ok := true;
    }

    /** Visits the claims in whatever order they come. */
    method SelectClaim(req: Request) returns (best: Option<string>)
      requires FleetOk(nodes, States())
      ensures IsSelection(req, nodes, States(), best)
    {
      if !req.shareable {
        return None;
      }
      ghost var states := States();
      var hostByNode := HostByNode(states);
      best := None;
      var todo := claims.Keys;
      ghost var seen: set<string> := {};
      while todo != {}
        invariant todo + seen == claims.Keys && todo !! seen
        invariant IsBestOf(req, nodes, states, seen, best)
      {
        var c :| c in todo;
        var ok := IsEligible(req, claims[c], hostByNode, states);
        var less := false;
        if ok && best.Some? {
          less := Less(claims[c], claims[best.value]);
        }
        BestNext(req, nodes, states, seen, c, best, ok, less);
        if ok && (best.None? || less) {
          best := Some(c);
        }
        todo, seen := todo - {c}, seen + {c};
      }
      BestOfAll(req, nodes, states, seen, best);
      assert States() == states;
    }
  }
}
