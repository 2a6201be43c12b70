/** The load balancer's server list and its rotating index, and how fair the rotation is while
    servers keep registering. */
module BalancerRoundRobin {

  import opened Options

  datatype ServerRecord = ServerRecord(id: string, address: string, port: int, load: real)

  datatype Balancer = Balancer(servers: seq<ServerRecord>, rrIndex: nat)

  const ROUND_ROBIN := "roundrobin"
  const LEAST_LOAD := "leastload"

  predicate Valid(b: Balancer) {
    if b.servers == [] then b.rrIndex == 0 else b.rrIndex < |b.servers|
  }

  function Registered(b: Balancer, id: string, address: string, port: int): Balancer {
    b.(servers := b.servers + [ServerRecord(id, address, port, 0.0)])
  }

  /** The position of the first record with this id, or the end. */
  function Find(servers: seq<ServerRecord>, id: string): (i: nat)
    ensures i <= |servers| && (i < |servers| ==> servers[i].id == id)
    ensures forall j :: 0 <= j < i ==> servers[j].id != id
  {
    if servers == [] || servers[0].id == id then 0 else 1 + Find(servers[1..], id)
  }

  function Reported(b: Balancer, id: string, load: real): Balancer {
    var i := Find(b.servers, id);
    if i == |b.servers| then b else b.(servers := b.servers[i := b.servers[i].(load := load)])
  }

  /** A round-robin request: the next state. The server served is the one at `b.rrIndex`. */
  function Served(b: Balancer): Balancer {
    if b.servers == [] then b else b.(rrIndex := (b.rrIndex + 1) % |b.servers|)
  }

  /** The server a policy other than round robin picks: the first of least load, or the first. */
  predicate Picks(policy: string, servers: seq<ServerRecord>, k: nat) {
    && k < |servers|
    && if policy == LEAST_LOAD then
         && (forall j :: 0 <= j < |servers| ==> servers[k].load <= servers[j].load)
         && (forall j :: 0 <= j < k ==> servers[k].load < servers[j].load)
       else k == 0
  }

  class LbServer {
    var servers: seq<ServerRecord>
    var rrIndex: nat
    const lbPolicy: string

    ghost function State(): Balancer
      reads this
    {
      Balancer(servers, rrIndex)
    }

    constructor (policy: string)
      ensures State() == Balancer([], 0) && lbPolicy == policy
    {
      servers, rrIndex, lbPolicy := [], 0, policy;
    }

    method RegisterServer(id: string, address: string, port: int)
      modifies this`servers
      ensures State() == Registered(old(State()), id, address, port)
    {
      servers := servers + [ServerRecord(id, address, port, 0.0)];
    }

    method ReportLoad(id: string, load: real) returns (found: bool)
      modifies this`servers
      ensures State() == Reported(old(State()), id, load)
      ensures found <==> exists rec :: rec in old(servers) && rec.id == id
    {
      for i := 0 to |servers|
        invariant servers == old(servers)
        invariant forall j :: 0 <= j < i ==> servers[j].id != id
      {
        if servers[i].id == id {
          assert servers[i] in old(servers);
          servers := servers[i := servers[i].(load := load)];
          return true;
        }
      }
      return false;
    }

    /** No server is an error; round robin serves the indexed server and advances the index; the
        other policies change nothing. */
    method GetBestServer() returns (chosen: Option<ServerRecord>)
      requires Valid(State())
      modifies this`rrIndex
      ensures Valid(State())
      ensures chosen.None? <==> servers == []
      ensures State() == if lbPolicy == ROUND_ROBIN then Served(old(State())) else old(State())
      ensures chosen.Some? && lbPolicy == ROUND_ROBIN ==> chosen.value == servers[old(rrIndex)]
      ensures chosen.Some? && lbPolicy != ROUND_ROBIN ==>
                exists k: nat :: Picks(lbPolicy, servers, k) && chosen.value == servers[k]
    {
      if |servers| == 0 {
        return None;
      }
      if lbPolicy == ROUND_ROBIN {
        chosen := Some(servers[rrIndex]);
        rrIndex := (rrIndex + 1) % |servers|;
      } else if lbPolicy == LEAST_LOAD {
        var best := servers[0];
        ghost var k := 0;
        for i := 0 to |servers|
          invariant k <= i && k < |servers| && best == servers[k]
          invariant forall j :: 0 <= j < i ==> best.load <= servers[j].load
          invariant forall j :: 0 <= j < k ==> best.load < servers[j].load
        {
          if servers[i].load < best.load {
            best, k := servers[i], i;
          }
        }
        assert Picks(lbPolicy, servers, k);
        chosen := Some(best);
      } else {
        assert Picks(lbPolicy, servers, 0);
        chosen := Some(servers[0]);
      }
    }
  }

  /** A report gives the first server of its id the reported load and changes nothing else. */
  lemma ReportIsStored(b: Balancer, id: string, load: real, i: nat)
    requires i < |b.servers| && b.servers[i].id == id && forall j :: 0 <= j < i ==> b.servers[j].id != id
    ensures var b' := Reported(b, id, load);
            && b'.rrIndex == b.rrIndex && |b'.servers| == |b.servers|
            && b'.servers[i] == ServerRecord(id, b.servers[i].address, b.servers[i].port, load)
            && forall j :: 0 <= j < |b.servers| && j != i ==> b'.servers[j] == b.servers[j]
  {
    var k := Find(b.servers, id);
    assert k == i;
  }

  /** A report of an unknown id changes nothing. */
  lemma UnknownReport(b: Balancer, id: string, load: real)
    requires forall j :: 0 <= j < |b.servers| ==> b.servers[j].id != id
    ensures Reported(b, id, load) == b
  {
  }

  /** So least load picks the server that has reported less than all others have, and nobody else. */
  lemma LeastLoadFollowsReports(b: Balancer, id: string, load: real, i: nat, k: nat)
    requires i < |b.servers| && b.servers[i].id == id && forall j :: 0 <= j < i ==> b.servers[j].id != id
    requires forall j :: 0 <= j < |b.servers| && j != i ==> load < b.servers[j].load
    ensures Picks(LEAST_LOAD, Reported(b, id, load).servers, k) <==> k == i
  {
    ReportIsStored(b, id, load, i);
  }

  // ---- Runs under round robin ----

  datatype Event = Register(id: string, address: string, port: int) | Report(id: string, load: real) | Request

  function Next(b: Balancer, e: Event): Balancer {
    match e
    case Register(id, address, port) => Registered(b, id, address, port)
    case Report(id, load) => Reported(b, id, load)
    case Request => Served(b)
  }

  function After(b: Balancer, events: seq<Event>): Balancer
    decreases events
  {
    if events == [] then b else After(Next(b, events[0]), events[1..])
  }

  /** How often the server at position `j` is served. */
  function Times(b: Balancer, events: seq<Event>, j: nat): nat
    decreases events
  {
    if events == [] then 0
    else
      (if events[0].Request? && b.servers != [] && b.rrIndex == j then 1 else 0)
      + Times(Next(b, events[0]), events[1..], j)
  }

  /** How often the index comes back to the start. */
  function Passes(b: Balancer, events: seq<Event>): nat
    decreases events
  {
    if events == [] then 0
    else
      (if events[0].Request? && b.servers != [] && b.rrIndex + 1 == |b.servers| then 1 else 0)
      + Passes(Next(b, events[0]), events[1..])
  }

  function Requests(events: seq<Event>): nat {
    if events == [] then 0 else (if events[0].Request? then 1 else 0) + Requests(events[1..])
  }

  lemma NextIndex(b: Balancer, e: Event)
    requires Valid(b)
    ensures if e.Request? && b.servers != []
            then Next(b, e).rrIndex == if b.rrIndex + 1 == |b.servers| then 0 else b.rrIndex + 1
            else Next(b, e).rrIndex == b.rrIndex
  {
  }

  lemma NextKeeps(b: Balancer, e: Event)
    requires Valid(b)
    ensures Valid(Next(b, e)) && |b.servers| <= |Next(b, e).servers|
    ensures forall j :: 0 <= j < |b.servers| ==>
              var rec := Next(b, e).servers[j];
              rec.id == b.servers[j].id && rec.address == b.servers[j].address && rec.port == b.servers[j].port
  {
  }

  /** The index stays in range, and a server keeps its position. */
  lemma {:induction false} RunKeeps(b: Balancer, events: seq<Event>)
    requires Valid(b)
    ensures Valid(After(b, events)) && |b.servers| <= |After(b, events).servers|
    ensures forall j :: 0 <= j < |b.servers| ==>
              var rec := After(b, events).servers[j];
              rec.id == b.servers[j].id && rec.address == b.servers[j].address && rec.port == b.servers[j].port
    decreases events
  {
    if events != [] {
      NextKeeps(b, events[0]);
      RunKeeps(Next(b, events[0]), events[1..]);
    }
  }

  function Before(j: nat, index: nat): nat {
    if j < index then 1 else 0
  }

  /** A server is served once per pass, whoever registers meanwhile: in this pass it has had its
      turn exactly when the index is past it. */
  lemma {:induction false} OncePerPass(b: Balancer, events: seq<Event>, j: nat)
    requires Valid(b) && j < |b.servers|
    ensures Times(b, events, j) + Before(j, b.rrIndex) == Passes(b, events) + Before(j, After(b, events).rrIndex)
    decreases events
  {
    if events != [] {
      hide Next;
      NextKeeps(b, events[0]);
      NextIndex(b, events[0]);
      OncePerPass(Next(b, events[0]), events[1..], j);
    }
  }

  /** Over any window of a run, any two servers registered at its start are served equally often,
      give or take one. */
  lemma FairWindow(b: Balancer, events: seq<Event>, i: nat, j: nat)
    requires Valid(b) && i < |b.servers| && j < |b.servers|
    ensures -1 <= Times(b, events, i) - Times(b, events, j) <= 1
  {
    OncePerPass(b, events, i);
    OncePerPass(b, events, j);
  }

  /** From an empty balancer: since the later of two servers registered, the numbers of times each
      was served differ by at most one; the newcomer's first turn is in the pass it joined. */
  lemma FairSinceRegistered(before: seq<Event>, newcomer: Event, after: seq<Event>, i: nat)
    requires newcomer.Register?
    requires i <= |After(Balancer([], 0), before).servers|
    ensures var joined := Next(After(Balancer([], 0), before), newcomer);
            var j := |joined.servers| - 1;
            && joined.servers[j] == ServerRecord(newcomer.id, newcomer.address, newcomer.port, 0.0)
            && -1 <= Times(joined, after, i) - Times(joined, after, j) <= 1
            && Times(joined, after, j) == Passes(joined, after) + Before(j, After(joined, after).rrIndex)
  {
    RunKeeps(Balancer([], 0), before);
    var joined := Next(After(Balancer([], 0), before), newcomer);
    FairWindow(joined, after, i, |joined.servers| - 1);
    OncePerPass(joined, after, |joined.servers| - 1);
  }

  /** A server not served in a window is at most this many requests away. */
  lemma {:induction false} Waiting(b: Balancer, events: seq<Event>, j: nat)
    requires Valid(b) && j < |b.servers| && Times(b, events, j) == 0
    ensures |b.servers| <= |After(b, events).servers|
    ensures Requests(events) <= if b.rrIndex <= j then j - b.rrIndex else |After(b, events).servers| - b.rrIndex + j
    decreases events
  {
    if events != [] {
      hide Next;
      NextKeeps(b, events[0]);
      NextIndex(b, events[0]);
      Waiting(Next(b, events[0]), events[1..], j);
    }
  }

  /** No starvation: a window with as many requests as there are servers at its end serves every
      server registered at its start. */
  lemma NoStarvation(b: Balancer, events: seq<Event>, j: nat)
    requires Valid(b) && j < |b.servers| && Requests(events) >= |After(b, events).servers|
    ensures Times(b, events, j) >= 1
  {
    if Times(b, events, j) == 0 {
      Waiting(b, events, j);
    }
  }
}
