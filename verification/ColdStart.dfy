/**
 * A cold start: any number of hosts, of any ranks, starting at any times and stepping in any
 * order, none leaving.
 */
module ColdStart {
  import opened Wrappers
  import opened Election
  import opened HelloProtocol
  import opened Elector
  import opened Network

  ghost predicate PastWait(net: Net, wait: nat, p: GrainId) {
    p in net.seats && net.seats[p].since.Some? && p in net.clock
        && Elapsed(net.seats[p].since.value, net.clock[p]) >= wait
  }

  ghost predicate AtMostOneClaimant(net: Net) {
    forall p, q :: Claims(net, p) && Claims(net, q) ==> p == q
  }

  /** Every star reported is around the one claimant, which reports itself as its hub. */
  ghost predicate StarsAgree(net: Net) {
    forall x | x in net.reports && net.reports[x] != MESH ::
      exists d :: Claims(net, d) && d in net.reports
                  && net.reports[x].primary == Some(d) && net.reports[d].primary == Some(d)
  }

  function RankOf(hosts: Hosts, p: GrainId): Candidate
    requires p in hosts
  {
    SelfCandidate(p, hosts[p].priority, hosts[p].availability, VACANT)
  }

  ghost predicate Above(hosts: Hosts, p: GrainId, q: GrainId)
    requires p in hosts && q in hosts
  {
    Outranks(RankOf(hosts, p), RankOf(hosts, q))
  }

  /** The best-ranked eligible host of all. */
  ghost predicate IsTop(hosts: Hosts, b: GrainId) {
    b in hosts && hosts[b].priority > 0 && forall p | p in hosts && hosts[p].priority > 0 :: !Above(hosts, p, b)
  }

  /** What every step of a cold start keeps. */
  ghost predicate Inv(hosts: Hosts, wait: nat, net: Net) {
    && net.seats.Keys == net.clock.Keys == net.reports.Keys <= hosts.Keys
    && AtMostOneClaimant(net)
    && (forall p | Claims(net, p) ::
      hosts[p].priority > 0 && PastWait(net, wait, p) && net.reports[p].primary == Some(p))
    && (forall p | p in net.seats && net.seats[p].seen :: exists d :: Claims(net, d))
    && (forall x | x in net.reports && net.reports[x] != MESH :: net.seats[x].seen)
    && (forall x, d | x in net.reports && net.reports[x] != MESH && Claims(net, d) :: net.reports[x].primary == Some(d))
    && (forall b | IsTop(hosts, b) && PastWait(net, wait, b) :: exists d :: Claims(net, d))
  }

  /** The candidates of one step's election. */
  function Field(hosts: Hosts, wait: nat, net: Net, e: Event): seq<Candidate>
    requires e.host in hosts
  {
    var seat := SeatIn(net, e.host);
    var since := if seat.since.Some? then seat.since.value else e.now;
    if Elapsed(since, e.now) >= wait
    then e.peers + [SelfCandidate(e.host, hosts[e.host].priority, hosts[e.host].availability, seat)]
    else e.peers
  }

  lemma FieldClaims(hosts: Hosts, wait: nat, net: Net, e: Event)
    requires Inv(hosts, wait, net) && Possible(hosts, net, e)
    ensures forall o | o in Field(hosts, wait, net, e) ::
      && o.deviceId in hosts
      && (o.claimsPrimary <==> Claims(net, o.deviceId))
      && o.priority == hosts[o.deviceId].priority && o.availability == hosts[o.deviceId].availability
    ensures forall p | Claims(net, p) :: Cand(hosts, net, p) in Field(hosts, wait, net, e)
  {
  }

  /** The one claim decides the election, as every host sees it. */
  lemma ClaimDecides(hosts: Hosts, wait: nat, net: Net, e: Event, d: GrainId, promote: bool)
    requires Inv(hosts, wait, net) && Possible(hosts, net, e) && Claims(net, d)
    ensures Elect(Field(hosts, wait, net, e), promote).primary == Some(d)
  {
    hide Elect, Field;
    FieldClaims(hosts, wait, net, e);
    var c := Cand(hosts, net, d);
    BestClaimantWins(Field(hosts, wait, net, e), promote, c);
  }

  lemma StepUnderAClaim(hosts: Hosts, wait: nat, net: Net, e: Event, d: GrainId)
    requires Inv(hosts, wait, net) && Possible(hosts, net, e) && Claims(net, d)
    ensures var net' := Act(hosts, wait, net, e);
            && (forall p :: Claims(net', p) <==> p == d)
            && net'.seats[e.host].seen
            && net'.reports[e.host].primary == Some(d)
            && (Claims(net', e.host) ==> PastWait(net', wait, e.host))
  {
    hide Elect, Outranks;
    FieldClaims(hosts, wait, net, e);
    ClaimDecides(hosts, wait, net, e, d, true);
    assert Cand(hosts, net, d) in Field(hosts, wait, net, e);
  }

  /** Without a claim the election is the fresh one, and only the best candidate takes the role. */
  lemma FreshElection(hosts: Hosts, wait: nat, net: Net, e: Event)
    requires Inv(hosts, wait, net) && Possible(hosts, net, e)
    requires forall p :: !Claims(net, p)
    ensures var field := Field(hosts, wait, net, e);
            && NoPrimaryClaims(field)
            && (Elect(field, false).primary == Some(e.host) ==> hosts[e.host].priority > 0)
            && (IsTop(hosts, e.host) && (exists o :: o in field && o.deviceId == e.host) ==>
                Elect(field, false).primary == Some(e.host))
  {
    hide Elect, Field, Outranks;
    FieldClaims(hosts, wait, net, e);
    var field := Field(hosts, wait, net, e);
    ElectedAreEligible(field, false);
    if self :| self in field && self.deviceId == e.host && IsTop(hosts, e.host) {
      forall o | o in field && Eligible(o) ensures !Outranks(o, self) {
        OutranksByRank(hosts, o, self);
      }
      FreshPrimary(field, false, self);
    }
  }

  lemma OutranksByRank(hosts: Hosts, o: Candidate, self: Candidate)
    requires o.deviceId in hosts && self.deviceId in hosts
    requires o.priority == hosts[o.deviceId].priority && o.availability == hosts[o.deviceId].availability
    requires self.priority == hosts[self.deviceId].priority && self.availability == hosts[self.deviceId].availability
    ensures Outranks(o, self) == Above(hosts, o.deviceId, self.deviceId)
  {
  }

  lemma StepWithoutAClaim(hosts: Hosts, wait: nat, net: Net, e: Event)
    requires Inv(hosts, wait, net) && Possible(hosts, net, e)
    requires forall p :: !Claims(net, p)
    ensures var net' := Act(hosts, wait, net, e);
            && (forall p :: Claims(net', p) ==> p == e.host)
            && net'.seats[e.host].seen == Claims(net', e.host)
            && (Claims(net', e.host) ==>
                hosts[e.host].priority > 0 && PastWait(net', wait, e.host)
                    && net'.reports[e.host].primary == Some(e.host))
            && (!Claims(net', e.host) ==> net'.reports[e.host] == MESH)
            && (IsTop(hosts, e.host) && PastWait(net', wait, e.host) ==> Claims(net', e.host))
  {
    hide Elect, Outranks;
    FreshElection(hosts, wait, net, e);
    assert !SeatIn(net, e.host).seen;
  }

  lemma StepKeepsInv(hosts: Hosts, wait: nat, net: Net, e: Event)
    requires Inv(hosts, wait, net) && Possible(hosts, net, e)
    ensures Inv(hosts, wait, Act(hosts, wait, net, e))
    ensures forall p | Claims(net, p) :: Claims(Act(hosts, wait, net, e), p)
  {
    hide Turn, Elect, Above;
    var net' := Act(hosts, wait, net, e);
    if d :| Claims(net, d) {
      StepUnderAClaim(hosts, wait, net, e, d);
      assert Claims(net', d);
    } else {
      StepWithoutAClaim(hosts, wait, net, e);
    }
    assert forall p | p != e.host :: SeatIn(net', p) == SeatIn(net, p);
  }

  // ----- whole runs -----

  lemma {:induction false} RunKeepsInv(hosts: Hosts, wait: nat, net: Net, events: seq<Event>)
    requires Inv(hosts, wait, net) && Legal(hosts, wait, net, events)
    ensures Inv(hosts, wait, Play(hosts, wait, net, events))
    ensures forall p | Claims(net, p) :: Claims(Play(hosts, wait, net, events), p)
    decreases |events|
  {
    hide Inv, Turn;
    if events != [] {
      StepKeepsInv(hosts, wait, net, events[0]);
      RunKeepsInv(hosts, wait, Act(hosts, wait, net, events[0]), events[1..]);
    }
  }

  /** From nothing: never two primary claimants, and every star reported is around the one there is. */
  lemma ColdStartIsSafe(hosts: Hosts, wait: nat, events: seq<Event>)
    requires Legal(hosts, wait, START, events)
    ensures AtMostOneClaimant(Play(hosts, wait, START, events))
    ensures StarsAgree(Play(hosts, wait, START, events))
  {
    RunKeepsInv(hosts, wait, START, events);
    var net := Play(hosts, wait, START, events);
    forall x | x in net.reports && net.reports[x] != MESH
      ensures exists d ::
        Claims(net, d) && d in net.reports && net.reports[x].primary == Some(d) && net.reports[d].primary == Some(d)
    {
      var d :| Claims(net, d);
      assert net.reports[x].primary == Some(d);
    }
  }

  /** What a host heard or said, at some step of the run, that counts as having seen a primary claim. */
  ghost predicate HeardAClaim(events: seq<Event>, x: GrainId) {
    exists k, c :: 0 <= k < |events| && events[k].host == x && c in events[k].peers && c.claimsPrimary
  }

  lemma {:induction false} SeenComesFromAClaim(hosts: Hosts, wait: nat, net: Net, events: seq<Event>, x: GrainId)
    requires Inv(hosts, wait, net) && Legal(hosts, wait, net, events)
    requires SeatIn(Play(hosts, wait, net, events), x).seen && !SeatIn(net, x).seen
    ensures HeardAClaim(events, x) || Claims(Play(hosts, wait, net, events), x)
    decreases |events|
  {
    hide Elect, Inv;
    if events != [] {
      var e := events[0];
      var net' := Act(hosts, wait, net, e);
      StepKeepsInv(hosts, wait, net, e);
      RunKeepsInv(hosts, wait, net', events[1..]);
      if !SeatIn(net', x).seen {
        SeenComesFromAClaim(hosts, wait, net', events[1..], x);
        if HeardAClaim(events[1..], x) {
          var k, c :| 0 <= k < |events[1..]| && events[1..][k].host == x && c in events[1..][k].peers
              && c.claimsPrimary;
          assert events[k + 1].host == x && c in events[k + 1].peers;
        }
      } else if !Claims(net', x) {
        SeenInOneStep(hosts, wait, net, e);
        assert events[0].host == x;
      }
    }
  }

  lemma SeenInOneStep(hosts: Hosts, wait: nat, net: Net, e: Event)
    requires e.host in hosts && !SeatIn(net, e.host).seen && Act(hosts, wait, net, e).seats[e.host].seen
    requires !Act(hosts, wait, net, e).seats[e.host].primary
    requires !SeatIn(net, e.host).primary || !PastWait(Act(hosts, wait, net, e), wait, e.host)
    ensures exists c :: c in e.peers && c.claimsPrimary
  {
    hide Elect;
  }

  /** A reported star is preceded by a primary claim that its reporter heard or made. */
  lemma NoStarBeforeAClaim(hosts: Hosts, wait: nat, events: seq<Event>, x: GrainId)
    requires Legal(hosts, wait, START, events)
    requires var net := Play(hosts, wait, START, events); x in net.reports && net.reports[x] != MESH
    ensures HeardAClaim(events, x) || Claims(Play(hosts, wait, START, events), x)
  {
    RunKeepsInv(hosts, wait, START, events);
    SeenComesFromAClaim(hosts, wait, START, events, x);
  }

  /** A best-ranked host exists among eligible ones. */
  lemma {:induction false} TopExists(hosts: Hosts, among: set<GrainId>) returns (b: GrainId)
    requires among != {} && forall p | p in among :: p in hosts && hosts[p].priority > 0
    ensures b in among && forall p | p in among :: !Above(hosts, p, b)
    decreases among
  {
    var first := Member(among);
    b := first;
    if among != {first} {
      assert among == (among - {first}) + {first};
      var c := TopExists(hosts, among - {first});
      b := if Above(hosts, c, first) then c else first;
      forall p | p in among ensures !Above(hosts, p, b) {
        assert p != first ==> !Above(hosts, p, c);
      }
    }
  }

  /** With every host past its wait, the best of the eligible ones has made the claim, or found one made. */
  lemma ClaimedPastTheWait(hosts: Hosts, wait: nat, net: Net) returns (d: GrainId)
    requires Inv(hosts, wait, net)
    requires forall p | p in hosts :: PastWait(net, wait, p)
    requires exists p :: p in hosts && hosts[p].priority > 0
    ensures Claims(net, d) && d in hosts && hosts[d].priority > 0
  {
    var eligible := set p | p in hosts && hosts[p].priority > 0;
    var p :| p in hosts && hosts[p].priority > 0;
    assert p in eligible;
    var b := TopExists(hosts, eligible);
    assert IsTop(hosts, b);
    d :| Claims(net, d);
  }

  /**
   * Once every host has taken a step past its wait, exactly one claims primary — provided some
   * host has a nonzero priority — and it never loses the claim afterwards.
   */
  lemma ColdStartConverges(hosts: Hosts, wait: nat, events: seq<Event>, more: seq<Event>) returns (d: GrainId)
    requires Legal(hosts, wait, START, events)
    requires forall p | p in hosts :: PastWait(Play(hosts, wait, START, events), wait, p)
    requires exists p :: p in hosts && hosts[p].priority > 0
    requires Legal(hosts, wait, Play(hosts, wait, START, events), more)
    ensures forall p :: Claims(Play(hosts, wait, START, events), p) <==> p == d
    ensures forall p :: Claims(Play(hosts, wait, Play(hosts, wait, START, events), more), p) <==> p == d
    ensures forall i | 0 <= i < |more| ::
      var reports := Play(hosts, wait, Play(hosts, wait, START, events), more).reports;
      more[i].host in reports && reports[more[i].host].primary == Some(d)
  {
    var net := Play(hosts, wait, START, events);
    RunKeepsInv(hosts, wait, START, events);
    d := ClaimedPastTheWait(hosts, wait, net);
    RunKeepsInv(hosts, wait, net, more);
    AllAgree(hosts, wait, net, more, d);
  }

  /** Every host that steps while the claim stands reports the star around the claimant. */
  lemma {:induction false} AllAgree(hosts: Hosts, wait: nat, net: Net, events: seq<Event>, d: GrainId)
    requires Inv(hosts, wait, net) && Legal(hosts, wait, net, events) && Claims(net, d)
    ensures forall x | x in net.reports && net.reports[x].primary == Some(d) ::
      var reports := Play(hosts, wait, net, events).reports; x in reports && reports[x].primary == Some(d)
    ensures forall i | 0 <= i < |events| ::
      var reports := Play(hosts, wait, net, events).reports;
      events[i].host in reports && reports[events[i].host].primary == Some(d)
    decreases |events|
  {
    hide Inv, Turn;
    if events != [] {
      var net' := Act(hosts, wait, net, events[0]);
      StepUnderAClaim(hosts, wait, net, events[0], d);
      StepKeepsInv(hosts, wait, net, events[0]);
      AllAgree(hosts, wait, net', events[1..], d);
      forall i | 0 <= i < |events|
        ensures var reports := Play(hosts, wait, net, events).reports;
                events[i].host in reports && reports[events[i].host].primary == Some(d)
      {
        assert i > 0 ==> events[i] == events[1..][i - 1];
      }
    }
  }
}
