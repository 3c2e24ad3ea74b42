/**
 * Hosts that are all past their wait, from any state of their claims, however inconsistent, as
 * long as one eligible host claims the primary role.
 */
module Convergence {
  import opened Wrappers
  import opened Election
  import opened HelloProtocol
  import opened Elector
  import opened Network
  import opened ColdStart

  /** Every host has stepped and is past its wait. */
  ghost predicate Settled(hosts: Hosts, wait: nat, net: Net) {
    && net.seats.Keys == net.clock.Keys == hosts.Keys
    && forall p | p in hosts :: PastWait(net, wait, p)
  }

  lemma {:induction false} ListSome(hosts: Hosts, net: Net, ids: set<GrainId>) returns (l: seq<Candidate>)
    requires net.seats.Keys <= hosts.Keys && ids <= net.seats.Keys
    ensures forall c :: c in l <==> c.deviceId in ids && c == Cand(hosts, net, c.deviceId)
    decreases ids
  {
    l := [];
    if ids != {} {
      var p := Member(ids);
      var rest := ListSome(hosts, net, ids - {p});
      l := rest + [Cand(hosts, net, p)];
    }
  }

  /** There is an arrangement of the hosts' claims to elect among. */
  lemma Listing(hosts: Hosts, net: Net, except: Option<GrainId>) returns (l: seq<Candidate>)
    requires net.seats.Keys <= hosts.Keys
    ensures Lists(hosts, net, l, except)
  {
    l := ListSome(hosts, net, set p | p in net.seats && Some(p) != except);
  }

  /** What the host that steps goes by: all claims, and whether it has ever seen a primary one. */
  ghost predicate Promotes(net: Net, l: seq<Candidate>, h: GrainId) {
    SeatIn(net, h).seen || !NoPrimaryClaims(l)
  }

  /** A step of a settled network: the host takes up exactly the roles it elects itself to. */
  lemma SettledStep(hosts: Hosts, wait: nat, net: Net, e: Event, l: seq<Candidate>)
    requires Settled(hosts, wait, net) && Possible(hosts, net, e) && Lists(hosts, net, l, None)
    ensures var net' := Act(hosts, wait, net, e);
            var roles := Elect(l, Promotes(net, l, e.host));
            var seat := net'.seats[e.host];
            && Settled(hosts, wait, net')
            && (forall p | p in hosts && p != e.host :: net'.seats[p] == net.seats[p])
            && seat.primary == (roles.primary == Some(e.host))
            && seat.secondary == (roles.secondary == Some(e.host))
            && seat.seen == (Promotes(net, l, e.host) || seat.primary)
            && net'.reports == net.reports[e.host := if seat.seen then roles else MESH]
  {
    hide Elect, Outranks;
    var field := Field(hosts, wait, net, e);
    assert PastWait(net, wait, e.host);
    assert field == e.peers + [Cand(hosts, net, e.host)];
    assert SameMembers(field, l);
    ElectIgnoresOrder(field, l, true);
    ElectIgnoresOrder(field, l, false);
  }

  /** Seen from the candidates, that step is the elected roles being taken up by one of them. */
  lemma StepIsActed(hosts: Hosts, wait: nat, net: Net, e: Event, l: seq<Candidate>, l': seq<Candidate>)
    requires Settled(hosts, wait, net) && Possible(hosts, net, e) && Lists(hosts, net, l, None)
    requires Act(hosts, wait, net, e).seats.Keys <= hosts.Keys && Lists(hosts, Act(hosts, wait, net, e), l', None)
    ensures Acted(l, l', {e.host}, Elect(l, Promotes(net, l, e.host)))
  {
    hide Elect, Act;
    SettledStep(hosts, wait, net, e, l);
    var roles := Elect(l, Promotes(net, l, e.host));
    var net' := Act(hosts, wait, net, e);
    forall c | c in l ensures Now(c, {e.host}, roles) == Cand(hosts, net', c.deviceId) {
    }
    forall d | d in l' ensures exists c :: c in l && d == Now(c, {e.host}, roles) {
      assert Cand(hosts, net, d.deviceId) in l;
    }
  }

  lemma OneStepKeepsTheOutcome(hosts: Hosts, wait: nat, net: Net, e: Event, l: seq<Candidate>, l': seq<Candidate>,
                               promote: bool)
    requires Settled(hosts, wait, net) && Possible(hosts, net, e) && Lists(hosts, net, l, None)
    requires HasEligibleClaimant(l)
    requires Act(hosts, wait, net, e).seats.Keys <= hosts.Keys && Lists(hosts, Act(hosts, wait, net, e), l', None)
    ensures HasEligibleClaimant(l') && Elect(l', promote) == Elect(l, true)
  {
    hide Elect, Act, Acted;
    assert !NoPrimaryClaims(l);
    StepIsActed(hosts, wait, net, e, l, l');
    ActingDoesNotChangeTheOutcome(l, l', {e.host}, true, promote);
  }

  /** The host claims the roles `roles` gives it, no others, and reports them, having seen a primary claim. */
  ghost predicate Follows(net: Net, p: GrainId, roles: Roles) {
    && p in net.seats && p in net.reports && net.seats[p].seen
    && net.seats[p].primary == (roles.primary == Some(p))
    && net.seats[p].secondary == (roles.secondary == Some(p))
    && net.reports[p] == roles
  }

  /**
   * Every step of every run elects the same pair, and every host that has stepped claims exactly
   * its part of it and reports it, then and ever after.
   */
  lemma {:induction false} Converges(hosts: Hosts, wait: nat, net: Net, events: seq<Event>, l: seq<Candidate>,
                                     l': seq<Candidate>, promote: bool)
    requires Settled(hosts, wait, net) && Legal(hosts, wait, net, events)
    requires Lists(hosts, net, l, None) && HasEligibleClaimant(l)
    requires Lists(hosts, Play(hosts, wait, net, events), l', None)
    ensures Elect(l', promote) == Elect(l, true)
    ensures forall i | 0 <= i < |events| :: Follows(Play(hosts, wait, net, events), events[i].host, Elect(l, true))
    ensures forall p | Follows(net, p, Elect(l, true)) :: Follows(Play(hosts, wait, net, events), p, Elect(l, true))
    decreases |events|
  {
    hide Elect, Act;
    if events == [] {
      assert Acted(l, l', {}, Elect(l, true)) by {
        assert forall c | c in l :: Now(c, {}, Elect(l, true)) == c;
      }
      ActingDoesNotChangeTheOutcome(l, l', {}, true, promote);
    } else {
      var e := events[0];
      var net1 := Act(hosts, wait, net, e);
      SettledStep(hosts, wait, net, e, l);
      assert !NoPrimaryClaims(l);
      var l1 := Listing(hosts, net1, None);
      OneStepKeepsTheOutcome(hosts, wait, net, e, l, l1, true);
      Converges(hosts, wait, net1, events[1..], l1, l', promote);
      forall i | 0 <= i < |events| ensures Follows(Play(hosts, wait, net, events), events[i].host, Elect(l, true)) {
        assert i > 0 ==> events[i] == events[1..][i - 1];
      }
    }
  }

  /** Whoever is elected while an eligible host claims the role is the best-ranked of those that do. */
  lemma TheBestClaimantLeads(hosts: Hosts, net: Net, l: seq<Candidate>)
    requires net.seats.Keys == hosts.Keys && Lists(hosts, net, l, None) && HasEligibleClaimant(l)
    ensures var d := Elect(l, true).primary;
            && d.Some? && d.value in hosts && hosts[d.value].priority > 0 && SeatIn(net, d.value).primary
            && forall p | p in hosts && hosts[p].priority > 0 && SeatIn(net, p).primary :: !Above(hosts, p, d.value)
  {
    hide Elect;
    ClaimantIsElected(l, true);
    var pool := Filter(l, Eligible);
    var best := BestWitness(pool, ClaimsPrimary);
    assert best in l;
    forall p | p in hosts && hosts[p].priority > 0 && SeatIn(net, p).primary ensures !Above(hosts, p, best.deviceId) {
      var c := Cand(hosts, net, p);
      assert c in pool && ClaimsPrimary(c) && !Outranks(c, best);
    }
  }

  /**
   * Once every host has stepped, the best-ranked eligible claimant is the primary one, another the secondary
   * one if there is another, nobody else claims anything, and all report this.
   */
  lemma EveryoneAgrees(hosts: Hosts, wait: nat, net: Net, events: seq<Event>, l: seq<Candidate>) returns (roles: Roles)
    requires Settled(hosts, wait, net) && Legal(hosts, wait, net, events)
    requires Lists(hosts, net, l, None) && HasEligibleClaimant(l)
    requires forall p | p in hosts :: exists i :: 0 <= i < |events| && events[i].host == p
    ensures forall p | p in hosts :: Follows(Play(hosts, wait, net, events), p, roles)
    ensures roles.primary.Some? && roles.primary.value in hosts && hosts[roles.primary.value].priority > 0
    ensures SeatIn(net, roles.primary.value).primary
    ensures forall p | p in hosts && hosts[p].priority > 0 && SeatIn(net, p).primary ::
      !Above(hosts, p, roles.primary.value)
    ensures roles.secondary.Some? <==> exists p :: p in hosts && hosts[p].priority > 0 && Some(p) != roles.primary
    ensures roles.secondary.Some? ==> roles.secondary != roles.primary
    ensures roles.secondary.Some? ==> roles.secondary.value in hosts && hosts[roles.secondary.value].priority > 0
  {
    hide Elect, Act, Follows;
    roles := Elect(l, true);
    var l' := Listing(hosts, Play(hosts, wait, net, events), None);
    Converges(hosts, wait, net, events, l, l', true);
    forall p | p in hosts ensures Follows(Play(hosts, wait, net, events), p, roles) {
      var i :| 0 <= i < |events| && events[i].host == p;
    }
    ElectedAreEligible(l, true);
    assert forall p | p in hosts :: Cand(hosts, net, p) in l;
    TheBestClaimantLeads(hosts, net, l);
  }

  /** A cold start past everyone's wait is a settled network with an eligible claimant. */
  lemma AColdStartSettles(hosts: Hosts, wait: nat, events: seq<Event>) returns (l: seq<Candidate>)
    requires Legal(hosts, wait, START, events)
    requires forall p | p in hosts :: PastWait(Play(hosts, wait, START, events), wait, p)
    requires exists p :: p in hosts && hosts[p].priority > 0
    ensures var net := Play(hosts, wait, START, events);
            Settled(hosts, wait, net) && Lists(hosts, net, l, None) && HasEligibleClaimant(l)
  {
    hide Inv, Play, Legal, Settled, Lists, HasEligibleClaimant, PastWait;
    var net := Play(hosts, wait, START, events);
    NothingIsKept(hosts, wait);
    RunKeepsInv(hosts, wait, START, events);
    l := InvSettles(hosts, wait, net);
  }

  lemma NothingIsKept(hosts: Hosts, wait: nat)
    ensures Inv(hosts, wait, START)
  {
  }

  lemma InvSettles(hosts: Hosts, wait: nat, net: Net) returns (l: seq<Candidate>)
    requires net.seats.Keys <= hosts.Keys && Inv(hosts, wait, net)
    requires forall p | p in hosts :: PastWait(net, wait, p)
    requires exists p :: p in hosts && hosts[p].priority > 0
    ensures Settled(hosts, wait, net) && Lists(hosts, net, l, None) && HasEligibleClaimant(l)
  {
    var d := ClaimedPastTheWait(hosts, wait, net);
    hide Inv;
    assert net.seats.Keys == net.clock.Keys by {
      InvKeys(hosts, wait, net);
    }
    forall p | p in hosts ensures p in net.seats {
      assert PastWait(net, wait, p);
    }
    assert net.seats.Keys == hosts.Keys;
    l := Listing(hosts, net, None);
    var c := Cand(hosts, net, d);
    assert c in l && Eligible(c) && c.claimsPrimary;
  }

  lemma InvKeys(hosts: Hosts, wait: nat, net: Net)
    requires Inv(hosts, wait, net)
    ensures net.seats.Keys == net.clock.Keys
  {
  }

  /**
   * A cold start ends with both roles: once every host has stepped past its wait and then stepped
   * again, all claim and report one eligible pair, the secondary being there if a second eligible
   * host is.
   */
  lemma AColdStartFillsBothRoles(hosts: Hosts, wait: nat, events: seq<Event>, more: seq<Event>) returns (roles: Roles)
    requires Legal(hosts, wait, START, events)
    requires forall p | p in hosts :: PastWait(Play(hosts, wait, START, events), wait, p)
    requires exists p :: p in hosts && hosts[p].priority > 0
    requires Legal(hosts, wait, Play(hosts, wait, START, events), more)
    requires forall p | p in hosts :: exists i :: 0 <= i < |more| && more[i].host == p
    ensures forall p | p in hosts :: Follows(Play(hosts, wait, Play(hosts, wait, START, events), more), p, roles)
    ensures roles.primary.Some? && Claims(Play(hosts, wait, START, events), roles.primary.value)
    ensures roles.secondary.Some? <==> exists p :: p in hosts && hosts[p].priority > 0 && Some(p) != roles.primary
    ensures roles.secondary.Some? ==> roles.secondary.value in hosts && hosts[roles.secondary.value].priority > 0
  {
    hide Act, Follows, Elect, Inv, Settled, PastWait, Play, Legal, Lists, HasEligibleClaimant;
    var net := Play(hosts, wait, START, events);
    var l := AColdStartSettles(hosts, wait, events);
    roles := EveryoneAgrees(hosts, wait, net, more, l);
  }
}
