/**
 * Any number of hosts of one workspace, each stepping at its own times and in any order, and
 * each hearing the latest Hello of every other.
 */
module Network {
  import opened Wrappers
  import opened Election
  import opened HelloProtocol
  import opened Elector

  datatype Profile = Profile(priority: U8, availability: Option<U8>)

  /** The hosts, and what each says about itself besides its claims. */
  type Hosts = map<GrainId, Profile>

  /**
   * The hosts that have stepped: what each remembers of the workspace, when it last stepped,
   * and the roles it last reported. A host publishes its claims as it steps, so `seats` is
   * also everyone's latest Hello.
   */
  datatype Net = Net(seats: map<GrainId, Seat>, clock: map<GrainId, int>, reports: map<GrainId, Roles>)

  const START := Net(map[], map[], map[])

  /** One host's step: when by its own clock, and the other hosts as it hears them, in any order. */
  datatype Event = Event(host: GrainId, now: int, peers: seq<Candidate>)

  function Cand(hosts: Hosts, net: Net, p: GrainId): Candidate
    requires p in hosts && p in net.seats
  {
    SelfCandidate(p, hosts[p].priority, hosts[p].availability, net.seats[p])
  }

  /** The sequence names exactly the hosts that have stepped, but for `except`, with their latest claims. */
  ghost predicate Lists(hosts: Hosts, net: Net, candidates: seq<Candidate>, except: Option<GrainId>)
    requires net.seats.Keys <= hosts.Keys
  {
    forall c :: c in candidates <==>
      c.deviceId in net.seats && Some(c.deviceId) != except && c == Cand(hosts, net, c.deviceId)
  }

  ghost predicate Possible(hosts: Hosts, net: Net, e: Event)
    requires net.seats.Keys <= hosts.Keys
  {
    && e.host in hosts
    && Lists(hosts, net, e.peers, Some(e.host))
    && (e.host in net.clock ==> net.clock[e.host] <= e.now)
  }

  function SeatIn(net: Net, p: GrainId): Seat {
    if p in net.seats then net.seats[p] else VACANT
  }

  function Act(hosts: Hosts, wait: nat, net: Net, e: Event): Net
    requires e.host in hosts
  {
    var (seat, report) := Turn(e.host, hosts[e.host].priority, hosts[e.host].availability, wait, e.now,
        SeatIn(net, e.host), e.peers);
    Net(net.seats[e.host := seat], net.clock[e.host := e.now], net.reports[e.host := report])
  }

  /** Every event could happen when it did. */
  ghost predicate Legal(hosts: Hosts, wait: nat, net: Net, events: seq<Event>)
    requires net.seats.Keys <= hosts.Keys
    decreases |events|
  {
    events != [] ==>
        Possible(hosts, net, events[0]) && Legal(hosts, wait, Act(hosts, wait, net, events[0]), events[1..])
  }

  /** The network after `events`. */
  ghost function Play(hosts: Hosts, wait: nat, net: Net, events: seq<Event>): (r: Net)
    requires net.seats.Keys <= hosts.Keys
    requires Legal(hosts, wait, net, events)
    ensures net.seats.Keys <= r.seats.Keys <= hosts.Keys
    decreases |events|
  {
    if events == [] then net else Play(hosts, wait, Act(hosts, wait, net, events[0]), events[1..])
  }

  ghost predicate Claims(net: Net, p: GrainId) {
    p in net.seats && net.seats[p].primary
  }

  // ----- the link to electors and their Hellos -----

  /** `h` is what host `p` of `ws` last published. */
  ghost predicate Published(hosts: Hosts, net: Net, ws: GrainId, h: Hello, p: GrainId)
    requires p in hosts && p in net.seats
  {
    && h.deviceId == p && ws in h.hosting
    && Standing(h, ws) == Cand(hosts, net, p)
  }

  /** Of the hosts of `ws`, `hellos` holds exactly the latest Hello of every one but `me`, whatever else it holds. */
  ghost predicate LatestHellos(hosts: Hosts, net: Net, ws: GrainId, hellos: seq<Hello>, me: GrainId)
    requires net.seats.Keys <= hosts.Keys
  {
    && (forall h | h in hellos && h.deviceId != me && ws in h.hosting ::
          h.deviceId in net.seats && Published(hosts, net, ws, h, h.deviceId))
    && (forall p | p in net.seats && p != me :: exists h :: h in hellos && Published(hosts, net, ws, h, p))
  }

  /**
   * A real elector's round, hosting `ws` among its distinct workspaces and hearing the latest
   * Hellos, is a step of this network for `ws`.
   */
  lemma RoundIsAct(hosts: Hosts, wait: nat, net: Net, me: GrainId, now: int, own: Own, hellos: seq<Hello>, ws: GrainId)
    returns (e: Event)
    requires net.seats.Keys <= hosts.Keys && me in hosts
    requires hosts[me] == Profile(own.priority, own.availability)
    requires multiset(own.hosting)[ws] == 1
    requires LatestHellos(hosts, net, ws, hellos, me)
    requires me in net.clock ==> net.clock[me] <= now
    ensures e.host == me && e.now == now && Possible(hosts, net, e)
    ensures var (seat, report) := Round(me, wait, now, own, hellos, SeatIn(net, me), ws);
            Act(hosts, wait, net, e) == Net(net.seats[me := seat], net.clock[me := now], net.reports[me := report])
  {
    e := Event(me, now, CandidatesFor(hellos, me, ws));
    forall c
      ensures c in e.peers <==>
          c.deviceId in net.seats && Some(c.deviceId) != Some(me) && c == Cand(hosts, net, c.deviceId)
    {
      if c.deviceId in net.seats && c.deviceId != me && c == Cand(hosts, net, c.deviceId) {
        var h :| h in hellos && Published(hosts, net, ws, h, c.deviceId);
        assert Standing(h, ws) in e.peers;
      }
    }
    assert Lists(hosts, net, e.peers, Some(me));
    SingleTurn(me, wait, now, own, hellos, SeatIn(net, me), ws);
  }

  lemma SingleTurn(me: GrainId, wait: nat, now: int, own: Own, peers: seq<Hello>, seat: Seat, ws: GrainId)
    requires multiset(own.hosting)[ws] == 1
    ensures Round(me, wait, now, own, peers, seat, ws) ==
            Turn(me, own.priority, own.availability, wait, now, seat, CandidatesFor(peers, me, ws))
  {
    hide Elect, CandidatesFor;
    assert ws in multiset(own.hosting);
    assert Turns(me, own, wait, now, Opened(seat, own, ws, now), CandidatesFor(peers, me, ws), 0) ==
        (Opened(seat, own, ws, now), MESH);
  }
}
