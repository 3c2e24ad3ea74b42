/**
 * Settled hosts with no primary claimant and any number of secondary ones: who can ever become
 * primary, who must, and when nobody can.
 */
module Succession {
  import opened Wrappers
  import opened Election
  import opened HelloProtocol
  import opened Elector
  import opened Network
  import opened ColdStart
  import opened Convergence
  import ElectorRuns

  ghost predicate Leaderless(net: Net) {
    forall p :: !Claims(net, p)
  }

  ghost predicate CanLead(hosts: Hosts, p: GrainId) {
    p in hosts && hosts[p].priority > 0
  }

  /** `p` is eligible and claims the secondary role. */
  ghost predicate Heir(hosts: Hosts, net: Net, p: GrainId) {
    CanLead(hosts, p) && SeatIn(net, p).secondary
  }

  /** The best heir, leaving out `except`. */
  ghost predicate TopHeir(hosts: Hosts, net: Net, c: GrainId, except: Option<GrainId>) {
    && Heir(hosts, net, c) && Some(c) != except
    && forall p | Heir(hosts, net, p) && Some(p) != except :: !Above(hosts, p, c)
  }

  /**
   * The trap. The best host `b`, which knows of an earlier primary, defers to the best heir `c`;
   * `c`, which knows of none, defers to `b`; and a second heir `d`, which knows of one, keeps `b`
   * from becoming an heir itself.
   */
  ghost predicate TrappedBy(hosts: Hosts, net: Net, b: GrainId, c: GrainId, d: GrainId) {
    && IsTop(hosts, b) && SeatIn(net, b).seen && !SeatIn(net, b).secondary
    && TopHeir(hosts, net, c, None) && !SeatIn(net, c).seen
    && TopHeir(hosts, net, d, Some(c)) && SeatIn(net, d).seen
  }

  ghost predicate Trapped(hosts: Hosts, net: Net) {
    exists b, c, d :: TrappedBy(hosts, net, b, c, d)
  }

  // ----- one step without a leader -----

  /** The candidates of a leaderless network: its hosts, by rank, and no primary claim among them. */
  lemma LeaderlessCandidates(hosts: Hosts, net: Net, l: seq<Candidate>)
    requires net.seats.Keys == hosts.Keys && Leaderless(net) && Lists(hosts, net, l, None)
    ensures NoPrimaryClaims(l)
    ensures forall p | p in hosts :: Cand(hosts, net, p) in l
    ensures forall o, q | o in l && q in hosts :: Outranks(o, Cand(hosts, net, q)) == Above(hosts, o.deviceId, q)
  {
    hide Outranks;
    forall o | o in l ensures !o.claimsPrimary {
      assert !Claims(net, o.deviceId);
    }
    forall o, q | o in l && q in hosts ensures Outranks(o, Cand(hosts, net, q)) == Above(hosts, o.deviceId, q) {
      OutranksByRank(hosts, o, Cand(hosts, net, q));
    }
  }

  lemma TopIsPrimary(hosts: Hosts, net: Net, l: seq<Candidate>, promote: bool, b: GrainId)
    requires net.seats.Keys == hosts.Keys && Leaderless(net) && Lists(hosts, net, l, None)
    requires IsTop(hosts, b) && (!promote || forall p :: !Heir(hosts, net, p))
    ensures Elect(l, promote).primary == Some(b)
  {
    hide Elect, Outranks, Above;
    LeaderlessCandidates(hosts, net, l);
    forall o | promote && o in l && Eligible(o) ensures !ClaimsSecondary(o) {
      assert !Heir(hosts, net, o.deviceId);
    }
    FreshPrimary(l, promote, Cand(hosts, net, b));
  }

  lemma TopHeirIsPrimary(hosts: Hosts, net: Net, l: seq<Candidate>, c: GrainId)
    requires net.seats.Keys == hosts.Keys && Leaderless(net) && Lists(hosts, net, l, None)
    requires TopHeir(hosts, net, c, None)
    ensures Elect(l, true).primary == Some(c)
  {
    hide Elect, Outranks, Above;
    LeaderlessCandidates(hosts, net, l);
    PromotedPrimary(l, Cand(hosts, net, c));
  }

  lemma NextHeirIsSecondary(hosts: Hosts, net: Net, l: seq<Candidate>, promote: bool, d: GrainId)
    requires net.seats.Keys == hosts.Keys && Leaderless(net) && Lists(hosts, net, l, None)
    requires TopHeir(hosts, net, d, Elect(l, promote).primary)
    ensures Elect(l, promote).secondary == Some(d)
  {
    hide Elect, Outranks, Above;
    LeaderlessCandidates(hosts, net, l);
    ClaimedSecondary(l, promote, Cand(hosts, net, d));
  }

  lemma TopIsSecondary(hosts: Hosts, net: Net, l: seq<Candidate>, promote: bool, b: GrainId)
    requires net.seats.Keys == hosts.Keys && Leaderless(net) && Lists(hosts, net, l, None)
    requires IsTop(hosts, b) && Elect(l, promote).primary != Some(b)
    requires forall p | Heir(hosts, net, p) :: Some(p) == Elect(l, promote).primary
    ensures Elect(l, promote).secondary == Some(b)
  {
    hide Elect, Outranks, Above;
    LeaderlessCandidates(hosts, net, l);
    FreshSecondary(l, promote, Cand(hosts, net, b));
  }

  /** Whom a step makes primary and secondary, when nobody claims primary. */
  lemma LeaderlessElection(hosts: Hosts, net: Net, l: seq<Candidate>, promote: bool)
    requires net.seats.Keys == hosts.Keys && Leaderless(net) && Lists(hosts, net, l, None)
    ensures NoPrimaryClaims(l)
    ensures forall b | IsTop(hosts, b) && (!promote || forall p :: !Heir(hosts, net, p)) ::
      Elect(l, promote).primary == Some(b)
    ensures forall c | TopHeir(hosts, net, c, None) && promote :: Elect(l, promote).primary == Some(c)
    ensures forall d | TopHeir(hosts, net, d, Elect(l, promote).primary) :: Elect(l, promote).secondary == Some(d)
    ensures var primary := Elect(l, promote).primary;
            forall b | IsTop(hosts, b) && primary != Some(b)
                && (forall p | Heir(hosts, net, p) :: Some(p) == primary) ::
              Elect(l, promote).secondary == Some(b)
  {
    hide Elect, IsTop, TopHeir, Leaderless, Lists, Heir;
    LeaderlessCandidates(hosts, net, l);
    forall b | IsTop(hosts, b) && (!promote || forall p :: !Heir(hosts, net, p))
      ensures Elect(l, promote).primary == Some(b)
    {
      TopIsPrimary(hosts, net, l, promote, b);
    }
    forall c | TopHeir(hosts, net, c, None) && promote ensures Elect(l, promote).primary == Some(c) {
      TopHeirIsPrimary(hosts, net, l, c);
    }
    var primary := Elect(l, promote).primary;
    forall d | TopHeir(hosts, net, d, primary) ensures Elect(l, promote).secondary == Some(d) {
      NextHeirIsSecondary(hosts, net, l, promote, d);
    }
    forall b | IsTop(hosts, b) && primary != Some(b) && (forall p | Heir(hosts, net, p) :: Some(p) == primary)
      ensures Elect(l, promote).secondary == Some(b)
    {
      TopIsSecondary(hosts, net, l, promote, b);
    }
  }

  /** What a step does without a leader: the host takes up `roles` and nothing else changes. */
  lemma LeaderlessStep(hosts: Hosts, wait: nat, net: Net, e: Event) returns (roles: Roles)
    requires Settled(hosts, wait, net) && Possible(hosts, net, e) && Leaderless(net)
    ensures var net' := Act(hosts, wait, net, e);
            && Settled(hosts, wait, net')
            && (forall p :: Claims(net', p) <==> p == e.host && roles.primary == Some(p))
            && (forall p | p != e.host :: SeatIn(net', p) == SeatIn(net, p))
            && SeatIn(net', e.host).secondary == (roles.secondary == Some(e.host))
            && (roles.primary != Some(e.host) ==> SeatIn(net', e.host).seen == SeatIn(net, e.host).seen)
    ensures forall b | IsTop(hosts, b) && (!SeatIn(net, e.host).seen || forall p :: !Heir(hosts, net, p)) ::
      roles.primary == Some(b)
    ensures forall c | TopHeir(hosts, net, c, None) && SeatIn(net, e.host).seen :: roles.primary == Some(c)
    ensures forall d | TopHeir(hosts, net, d, roles.primary) :: roles.secondary == Some(d)
    ensures forall b | IsTop(hosts, b) && roles.primary != Some(b)
        && (forall p | Heir(hosts, net, p) :: Some(p) == roles.primary) ::
      roles.secondary == Some(b)
  {
    hide Elect, Act, IsTop, TopHeir;
    var l := Listing(hosts, net, None);
    var promote := SeatIn(net, e.host).seen;
    LeaderlessElection(hosts, net, l, promote);
    assert Promotes(net, l, e.host) == promote;
    roles := Elect(l, promote);
    SettledStep(hosts, wait, net, e, l);
    forall p ensures Claims(Act(hosts, wait, net, e), p) <==> p == e.host && roles.primary == Some(p) {
      assert !Claims(net, p);
    }
  }

  lemma OtherHeirs(hosts: Hosts, net: Net, net': Net, h: GrainId)
    requires forall p | p != h :: SeatIn(net', p) == SeatIn(net, p)
    ensures forall p | p != h :: Heir(hosts, net', p) == Heir(hosts, net, p)
  {
  }

  // ----- nobody can ever lead -----

  lemma TrapHolds(hosts: Hosts, wait: nat, net: Net, e: Event, b: GrainId, c: GrainId, d: GrainId)
    requires Settled(hosts, wait, net) && Possible(hosts, net, e) && Leaderless(net)
    requires TrappedBy(hosts, net, b, c, d)
    ensures Leaderless(Act(hosts, wait, net, e)) && TrappedBy(hosts, Act(hosts, wait, net, e), b, c, d)
  {
    hide Act, IsTop, Above;
    var roles := LeaderlessStep(hosts, wait, net, e);
    OtherHeirs(hosts, net, Act(hosts, wait, net, e), e.host);
    if SeatIn(net, e.host).seen {
      assert roles == Roles(Some(c), Some(d));
    } else {
      assert TopHeir(hosts, net, c, Some(b));
      assert roles == Roles(Some(b), Some(c));
    }
  }

  lemma {:induction false} TrappedForEver(hosts: Hosts, wait: nat, net: Net, events: seq<Event>)
    requires Settled(hosts, wait, net) && Legal(hosts, wait, net, events)
    requires Leaderless(net) && Trapped(hosts, net)
    ensures Leaderless(Play(hosts, wait, net, events))
    decreases |events|
  {
    hide Act, TrappedBy;
    if events != [] {
      var b, c, d :| TrappedBy(hosts, net, b, c, d);
      var roles := LeaderlessStep(hosts, wait, net, events[0]);
      TrapHolds(hosts, wait, net, events[0], b, c, d);
      assert Trapped(hosts, Act(hosts, wait, net, events[0]));
      TrappedForEver(hosts, wait, Act(hosts, wait, net, events[0]), events[1..]);
    }
  }

  // ----- otherwise somebody can -----

  /** The host steps now. */
  lemma StepNow(hosts: Hosts, wait: nat, net: Net, h: GrainId) returns (e: Event)
    requires Settled(hosts, wait, net) && h in hosts
    ensures e.host == h && Possible(hosts, net, e)
  {
    var peers := Listing(hosts, net, Some(h));
    e := Event(h, net.clock[h], peers);
  }

  ghost predicate SomebodyLeads(net: Net) {
    exists p :: Claims(net, p)
  }

  /** There is a schedule after which somebody claims primary. */
  ghost predicate CanBeLed(hosts: Hosts, wait: nat, net: Net)
    requires net.seats.Keys <= hosts.Keys
  {
    exists events :: Legal(hosts, wait, net, events) && SomebodyLeads(Play(hosts, wait, net, events))
  }

  lemma LedLater(hosts: Hosts, wait: nat, net: Net, e: Event)
    requires net.seats.Keys <= hosts.Keys && Possible(hosts, net, e)
    requires CanBeLed(hosts, wait, Act(hosts, wait, net, e))
    ensures CanBeLed(hosts, wait, net)
  {
    hide Act;
    var events :| Legal(hosts, wait, Act(hosts, wait, net, e), events)
        && SomebodyLeads(Play(hosts, wait, Act(hosts, wait, net, e), events));
    var all := [e] + events;
    assert all[0] == e && all[1..] == events;
    assert Legal(hosts, wait, net, all);
    assert SomebodyLeads(Play(hosts, wait, net, all));
  }

  /** A host that would elect itself leads after one step. */
  lemma LedAtOnce(hosts: Hosts, wait: nat, net: Net, h: GrainId)
    requires Settled(hosts, wait, net) && Leaderless(net)
    requires || (IsTop(hosts, h) && !SeatIn(net, h).seen)
             || (IsTop(hosts, h) && forall p :: !Heir(hosts, net, p))
             || (TopHeir(hosts, net, h, None) && SeatIn(net, h).seen)
    ensures CanBeLed(hosts, wait, net)
  {
    hide Act;
    var e := StepNow(hosts, wait, net, h);
    var roles := LeaderlessStep(hosts, wait, net, e);
    var net' := Act(hosts, wait, net, e);
    assert Claims(net', h);
    assert Legal(hosts, wait, net', []) && Play(hosts, wait, net', []) == net' && SomebodyLeads(net');
    LedLater(hosts, wait, net, e);
  }

  ghost function Heirs(hosts: Hosts, net: Net): set<GrainId> {
    set p | p in hosts && Heir(hosts, net, p)
  }

  lemma BestHeir(hosts: Hosts, net: Net, except: Option<GrainId>) returns (c: GrainId)
    requires exists p :: Heir(hosts, net, p) && Some(p) != except
    ensures TopHeir(hosts, net, c, except)
  {
    var some := set p | p in hosts && Heir(hosts, net, p) && Some(p) != except;
    var p :| Heir(hosts, net, p) && Some(p) != except;
    assert p in some;
    c := TopExists(hosts, some);
    forall q | Heir(hosts, net, q) && Some(q) != except ensures !Above(hosts, q, c) {
      assert q in some;
    }
  }

  /** The only heir `c` does not lead because it has not seen a claim; the best host then becomes an heir, and leads. */
  lemma LedPastALoneHeir(hosts: Hosts, wait: nat, net: Net, b: GrainId, c: GrainId)
    requires Settled(hosts, wait, net) && Leaderless(net)
    requires IsTop(hosts, b) && SeatIn(net, b).seen && b != c
    requires Heir(hosts, net, c) && forall p | Heir(hosts, net, p) :: p == c
    ensures CanBeLed(hosts, wait, net)
  {
    hide Act;
    var e := StepNow(hosts, wait, net, b);
    assert !Above(hosts, c, c);
    assert TopHeir(hosts, net, c, None);
    var roles := LeaderlessStep(hosts, wait, net, e);
    assert roles == Roles(Some(c), Some(b));
    var net' := Act(hosts, wait, net, e);
    assert TopHeir(hosts, net', b, None);
    LedAtOnce(hosts, wait, net', b);
    LedLater(hosts, wait, net, e);
  }

  /** An heir other than the best one, and other than a second one that holds on, gives up when it steps. */
  lemma HeirGivesUp(hosts: Hosts, wait: nat, net: Net, e: Event, b: GrainId, c: GrainId, d: GrainId)
    requires Settled(hosts, wait, net) && Possible(hosts, net, e) && Leaderless(net)
    requires IsTop(hosts, b) && !SeatIn(net, b).secondary
    requires TopHeir(hosts, net, c, None) && TopHeir(hosts, net, d, Some(c))
    requires e.host != c && e.host != b && (e.host == d ==> !SeatIn(net, d).seen)
    ensures var net' := Act(hosts, wait, net, e);
            && Leaderless(net') && Settled(hosts, wait, net')
            && Heirs(hosts, net') == Heirs(hosts, net) - {e.host}
            && (forall p :: SeatIn(net', p).seen == SeatIn(net, p).seen)
            && (forall p | p != e.host :: SeatIn(net', p) == SeatIn(net, p))
  {
    hide Act, IsTop, Above;
    var roles := LeaderlessStep(hosts, wait, net, e);
    var net' := Act(hosts, wait, net, e);
    OtherHeirs(hosts, net, net', e.host);
    if SeatIn(net, e.host).seen {
      assert roles == Roles(Some(c), Some(d));
    } else {
      assert TopHeir(hosts, net, c, Some(b));
      assert roles == Roles(Some(b), Some(c));
    }
    forall p ensures p in Heirs(hosts, net') <==> p in Heirs(hosts, net) - {e.host} {
      assert Heir(hosts, net', p) <==> Heir(hosts, net, p) && p != e.host;
    }
  }

  lemma {:induction false} UntrappedCanBeLed(hosts: Hosts, wait: nat, net: Net, b: GrainId)
    requires Settled(hosts, wait, net) && Leaderless(net)
    requires IsTop(hosts, b) && !Trapped(hosts, net)
    ensures CanBeLed(hosts, wait, net)
    decreases Heirs(hosts, net)
  {
    hide Act, CanBeLed, Above;
    if !SeatIn(net, b).seen || forall p :: !Heir(hosts, net, p) {
      LedAtOnce(hosts, wait, net, b);
      return;
    }
    var c := BestHeir(hosts, net, None);
    if SeatIn(net, c).seen {
      LedAtOnce(hosts, wait, net, c);
    } else if forall p | Heir(hosts, net, p) :: p == c {
      LedPastALoneHeir(hosts, wait, net, b, c);
    } else {
      if SeatIn(net, b).secondary {
        TopHeirIsTop(hosts, net, b, c);
        assert false;
      }
      var d := BestHeir(hosts, net, Some(c));
      assert !SeatIn(net, d).seen by {
        assert !TrappedBy(hosts, net, b, c, d);
      }
      var x := d;
      if o :| Heir(hosts, net, o) && o != c && o != d {
        x := o;
      }
      var e := StepNow(hosts, wait, net, x);
      HeirGivesUp(hosts, wait, net, e, b, c, d);
      StillUntrapped(hosts, net, Act(hosts, wait, net, e), b, c, d, x);
      UntrappedCanBeLed(hosts, wait, Act(hosts, wait, net, e), b);
      LedLater(hosts, wait, net, e);
    }
  }

  /** Two hosts never tie. */
  lemma NoTies(hosts: Hosts, p: GrainId, q: GrainId)
    requires p in hosts && q in hosts && !Above(hosts, p, q) && !Above(hosts, q, p)
    ensures p == q
  {
  }

  /** The best host, if it is an heir, is the best heir. */
  lemma TopHeirIsTop(hosts: Hosts, net: Net, b: GrainId, c: GrainId)
    requires IsTop(hosts, b) && TopHeir(hosts, net, c, None) && SeatIn(net, b).secondary
    ensures b == c
  {
    assert Heir(hosts, net, b) && CanLead(hosts, c);
    NoTies(hosts, b, c);
  }

  lemma StillUntrapped(hosts: Hosts, net: Net, net': Net, b: GrainId, c: GrainId, d: GrainId, x: GrainId)
    requires IsTop(hosts, b)
    requires TopHeir(hosts, net, c, None) && TopHeir(hosts, net, d, Some(c)) && !SeatIn(net, d).seen
    requires x != c && Heir(hosts, net, x) && (x == d ==> forall o | Heir(hosts, net, o) :: o == c || o == d)
    requires Heirs(hosts, net') == Heirs(hosts, net) - {x}
    requires forall p :: SeatIn(net', p).seen == SeatIn(net, p).seen
    ensures !Trapped(hosts, net')
  {
    hide Above;
    forall b', c', d' ensures !TrappedBy(hosts, net', b', c', d') {
      if TrappedBy(hosts, net', b', c', d') {
        assert forall p :: Heir(hosts, net', p) ==> p in Heirs(hosts, net');
        assert forall p | p in Heirs(hosts, net') :: Heir(hosts, net', p);
        NoTies(hosts, c, c');
        if x != d {
          NoTies(hosts, d, d');
        }
      }
    }
  }

  /**
   * Exactly when an election without a leader can end: some schedule makes somebody claim the
   * primary role if and only if the hosts are not trapped.
   */
  lemma LeaderReachableIffNotTrapped(hosts: Hosts, wait: nat, net: Net)
    requires Settled(hosts, wait, net) && Leaderless(net)
    requires exists p :: CanLead(hosts, p)
    ensures CanBeLed(hosts, wait, net) <==> !Trapped(hosts, net)
  {
    hide Act, Play, Trapped;
    if Trapped(hosts, net) {
      forall events | Legal(hosts, wait, net, events) ensures !SomebodyLeads(Play(hosts, wait, net, events)) {
        TrappedForEver(hosts, wait, net, events);
      }
    } else {
      var able := set p | p in hosts && CanLead(hosts, p);
      var p :| CanLead(hosts, p);
      assert p in able;
      var b := TopExists(hosts, able);
      assert IsTop(hosts, b);
      UntrappedCanBeLed(hosts, wait, net, b);
    }
  }

  // ----- the old secondary taking over -----

  /** The primary has just gone: every host has seen it, and `s` alone claims the secondary role. */
  ghost predicate JustLost(hosts: Hosts, net: Net, s: GrainId) {
    && Leaderless(net)
    && (forall p | p in hosts :: SeatIn(net, p).seen)
    && (forall p :: Heir(hosts, net, p) <==> p == s)
  }

  /** Only `s` leads or, while nobody does, `s` still stands by. */
  ghost predicate OnlyTheHeir(hosts: Hosts, net: Net, s: GrainId) {
    || (forall p :: Claims(net, p) <==> p == s)
    || (Leaderless(net) && Heir(hosts, net, s) && forall p | p in hosts :: SeatIn(net, p).seen)
  }

  lemma LeaderStays(hosts: Hosts, wait: nat, net: Net, e: Event, s: GrainId)
    requires Settled(hosts, wait, net) && Possible(hosts, net, e)
    requires CanLead(hosts, s) && forall p :: Claims(net, p) <==> p == s
    ensures Settled(hosts, wait, Act(hosts, wait, net, e))
    ensures forall p :: Claims(Act(hosts, wait, net, e), p) <==> p == s
  {
    hide Act, Elect;
    var l := Listing(hosts, net, None);
    SettledStep(hosts, wait, net, e, l);
    assert Claims(net, s);
    forall o | o in l && o.claimsPrimary ensures o == Cand(hosts, net, s) {
      assert Claims(net, o.deviceId);
    }
    assert Cand(hosts, net, s) in l;
    BestClaimantWins(l, Promotes(net, l, e.host), Cand(hosts, net, s));
    forall p ensures Claims(Act(hosts, wait, net, e), p) <==> p == s {
      assert Claims(net, p) <==> p == s;
    }
  }

  lemma {:induction false} TopHeirLeads(hosts: Hosts, wait: nat, net: Net, events: seq<Event>, s: GrainId)
    requires Settled(hosts, wait, net) && Legal(hosts, wait, net, events)
    requires IsTop(hosts, s) && OnlyTheHeir(hosts, net, s)
    ensures OnlyTheHeir(hosts, Play(hosts, wait, net, events), s)
    ensures Claims(net, s) || (exists i :: 0 <= i < |events| && events[i].host == s) ==>
        Claims(Play(hosts, wait, net, events), s)
    decreases |events|
  {
    hide Act;
    if events != [] {
      var e := events[0];
      var net' := Act(hosts, wait, net, e);
      if Claims(net, s) {
        LeaderStays(hosts, wait, net, e, s);
      } else {
        assert TopHeir(hosts, net, s, None);
        var roles := LeaderlessStep(hosts, wait, net, e);
        assert e.host == s || SeatIn(net', s) == SeatIn(net, s);
      }
      TopHeirLeads(hosts, wait, net', events[1..], s);
      if i :| 0 <= i < |events| && events[i].host == s {
        assert i > 0 ==> events[1..][i - 1].host == s;
      }
    }
  }

  /** A best host `t` that steps twice before the old secondary steps takes the role from it. */
  lemma Usurped(hosts: Hosts, wait: nat, net: Net, s: GrainId, t: GrainId) returns (events: seq<Event>)
    requires Settled(hosts, wait, net) && JustLost(hosts, net, s)
    requires IsTop(hosts, t) && t != s
    ensures Legal(hosts, wait, net, events) && Claims(Play(hosts, wait, net, events), t)
  {
    hide Act;
    var e := StepNow(hosts, wait, net, t);
    var net1 := Act(hosts, wait, net, e);
    assert CanLead(hosts, s) && TopHeir(hosts, net, s, None);
    var roles := LeaderlessStep(hosts, wait, net, e);
    assert roles == Roles(Some(s), Some(t));
    var e1 := StepNow(hosts, wait, net1, t);
    assert TopHeir(hosts, net1, t, None);
    var roles1 := LeaderlessStep(hosts, wait, net1, e1);
    var net2 := Act(hosts, wait, net1, e1);
    events := [e, e1];
    assert events[1..] == [e1] && [e1][1..] == [];
    assert Legal(hosts, wait, net2, []) && Play(hosts, wait, net2, []) == net2;
    assert Legal(hosts, wait, net1, [e1]) && Play(hosts, wait, net1, [e1]) == net2;
  }

  /**
   * When the primary goes, the old secondary takes over in every schedule exactly when no
   * eligible host outranks it.
   */
  lemma OldSecondaryTakesOverIffTop(hosts: Hosts, wait: nat, net: Net, s: GrainId)
    requires Settled(hosts, wait, net) && JustLost(hosts, net, s)
    ensures (forall events, p | Legal(hosts, wait, net, events) && Claims(Play(hosts, wait, net, events), p) :: p == s)
            <==> IsTop(hosts, s)
  {
    hide Act, Play;
    assert Heir(hosts, net, s);
    if IsTop(hosts, s) {
      forall events, p | Legal(hosts, wait, net, events) && Claims(Play(hosts, wait, net, events), p) ensures p == s {
        TopHeirLeads(hosts, wait, net, events, s);
      }
    } else {
      var able := set p | p in hosts && CanLead(hosts, p);
      assert s in able;
      var t := TopExists(hosts, able);
      assert IsTop(hosts, t);
      var events := Usurped(hosts, wait, net, s, t);
    }
  }

  const TRAP_HOSTS: Hosts := map[3 := Profile(3, None), 2 := Profile(2, None), 1 := Profile(1, None)]

  const TRAP := Net(map[3 := Seat(Some(0), false, true, false), 2 := Seat(Some(0), false, false, true),
                        1 := Seat(Some(0), false, true, true)],
                    map[3 := 0, 2 := 0, 1 := 0], map[])

  /** Three hosts of priorities 3, 2 and 1: the trap is not an empty notion. */
  lemma ATrap()
    ensures Settled(TRAP_HOSTS, 0, TRAP) && Leaderless(TRAP) && CanLead(TRAP_HOSTS, 3)
    ensures !CanBeLed(TRAP_HOSTS, 0, TRAP)
  {
    hide Act, Play;
    assert TrappedBy(TRAP_HOSTS, TRAP, 3, 2, 1);
    LeaderReachableIffNotTrapped(TRAP_HOSTS, 0, TRAP);
  }

  /** What a host of workspace 7 with its id for a priority says of itself. */
  function Says(id: U8, primary: set<GrainId>, secondary: set<GrainId>): Hello {
    Hello(id, id, None, [7], primary, secondary)
  }

  /** The one round of host `me` that ends in a trap: whom it hears, before a fourth host, 9, has gone. */
  function TrapRound(me: U8): seq<ElectorRuns.Input> {
    var heard :=
      if me == 2 then [Says(3, {}, {})]
      else if me == 1 then [Says(9, {7}, {})]
      else [Says(9, {7}, {}), Says(1, {}, {7})];
    [ElectorRuns.Input(0, Own(me, None, [7]), heard)]
  }

  const THREE := Candidate(3, 3, None, false, false)
  const NINE := Candidate(9, 9, None, true, false)
  const ONE := Candidate(1, 1, None, false, true)

  lemma TrapCandidates(me: U8)
    requires me in TRAP_HOSTS
    ensures CandidatesFor(TrapRound(me)[0].peers, me, 7) ==
            if me == 2 then [THREE] else if me == 1 then [NINE] else [NINE, ONE]
  {
    var peers := TrapRound(me)[0].peers;
    assert Standing(Says(3, {}, {}), 7) == THREE && Standing(Says(9, {7}, {}), 7) == NINE;
    assert Standing(Says(1, {}, {7}), 7) == ONE;
    assert CandidatesFor([], me, 7) == [];
    if me == 3 {
      assert peers[1..] == [Says(1, {}, {7})] && peers[1..][1..] == [];
      assert CandidatesFor(peers[1..], me, 7) == [ONE];
    } else {
      assert peers[1..] == [];
    }
  }

  /** Hearing nobody claim anything, host 2 stands by for host 3. */
  lemma TrapElection2()
    ensures Elect([THREE, Candidate(2, 2, None, false, false)], false) == Roles(Some(3), Some(2))
  {
    hide Elect;
    var self := Candidate(2, 2, None, false, false);
    var all := [THREE, self];
    assert THREE in all && self in all && forall o | o in all :: o == THREE || o == self;
    FreshPrimary(all, false, THREE);
    FreshSecondary(all, false, self);
  }

  /** Hearing host 9 claim the role, host 1 stands by for it, and host 3 leaves that to host 1. */
  lemma TrapElection13()
    ensures Elect([NINE, Candidate(1, 1, None, false, false)], true) == Roles(Some(9), Some(1))
    ensures Elect([NINE, ONE, THREE], true) == Roles(Some(9), Some(1))
  {
    hide Elect;
    var self := Candidate(1, 1, None, false, false);
    var two, three := [NINE, self], [NINE, ONE, THREE];
    assert NINE in two && self in two && forall o | o in two :: o == NINE || o == self;
    assert NINE in three && ONE in three && forall o | o in three :: o == NINE || o == ONE || o == THREE;
    BestClaimantWins(two, true, NINE);
    FreshSecondary(two, true, self);
    BestClaimantWins(three, true, NINE);
    ClaimedSecondary(three, true, ONE);
  }

  /** A new elector that need not wait: the seat its first round gives it. */
  lemma FirstRound(me: GrainId, input: ElectorRuns.Input, ws: GrainId, all: seq<Candidate>, heard: bool)
    requires multiset(input.own.hosting)[ws] == 1
    requires all == CandidatesFor(input.peers, me, ws)
                    + [SelfCandidate(me, input.own.priority, input.own.availability, VACANT)]
    requires heard <==> exists c :: c in all && c.claimsPrimary
    ensures var roles := Elect(all, heard);
            ElectorRuns.SeatAfter(me, 0, [input], ws)
            == Seat(Some(input.now), roles.primary == Some(me), heard || roles.primary == Some(me),
                    roles.secondary == Some(me))
  {
    hide Elect, CandidatesFor;
    assert [input][..0] == [];
    SingleTurn(me, 0, input.now, input.own, input.peers, VACANT, ws);
  }

  /** Electors get there: one round of each, hearing different hosts, leaves exactly the seats of `TRAP`. */
  lemma TheTrapIsReached(me: U8)
    requires me in TRAP_HOSTS
    ensures ElectorRuns.SeatAfter(me, 0, TrapRound(me), 7) == TRAP.seats[me]
    ensures TRAP_HOSTS[me] == Profile(TrapRound(me)[0].own.priority, TrapRound(me)[0].own.availability)
  {
    hide Elect, CandidatesFor, Says, ElectorRuns.SeatAfter;
    var input := TrapRound(me)[0];
    TrapCandidates(me);
    TrapElection2();
    TrapElection13();
    var all := CandidatesFor(input.peers, me, 7) + [SelfCandidate(me, me, None, VACANT)];
    if me == 2 {
      assert all == [THREE, Candidate(2, 2, None, false, false)];
      assert forall c | c in all :: !c.claimsPrimary;
      FirstRound(me, input, 7, all, false);
    } else {
      assert all[0] == NINE && NINE.claimsPrimary;
      assert all == if me == 1 then [NINE, Candidate(1, 1, None, false, false)] else [NINE, ONE, THREE];
      FirstRound(me, input, 7, all, true);
    }
  }

  /** Two hosts, the old secondary the lower ranked: another host can take over in its place. */
  lemma AUsurper() returns (hosts: Hosts, net: Net, events: seq<Event>)
    ensures Settled(hosts, 0, net) && JustLost(hosts, net, 1)
    ensures Legal(hosts, 0, net, events) && Claims(Play(hosts, 0, net, events), 2)
  {
    hide Act, Play;
    hosts := map[2 := Profile(2, None), 1 := Profile(1, None)];
    net := Net(map[2 := Seat(Some(0), false, true, false), 1 := Seat(Some(0), false, true, true)], map[2 := 0, 1 := 0],
        map[]);
    events := Usurped(hosts, 0, net, 1, 2);
  }

  // ----- from convergence to succession -----

  /** The network without a host that has gone. */
  function Without(net: Net, d: GrainId): Net {
    Net(net.seats - {d}, net.clock - {d}, net.reports - {d})
  }

  /** When the primary of a converged network goes, its secondary is the one heir it leaves, and all have seen it. */
  lemma ThePrimaryLeaves(hosts: Hosts, wait: nat, net: Net, roles: Roles)
    requires Settled(hosts, wait, net) && forall p | p in hosts :: Follows(net, p, roles)
    requires roles.primary.Some? && roles.secondary.Some? && roles.primary != roles.secondary
    requires CanLead(hosts, roles.secondary.value)
    ensures var d := roles.primary.value;
            && Settled(hosts - {d}, wait, Without(net, d))
            && JustLost(hosts - {d}, Without(net, d), roles.secondary.value)
  {
    var d := roles.primary.value;
    var left, after := hosts - {d}, Without(net, d);
    forall p | p in left ensures PastWait(after, wait, p) {
      assert PastWait(net, wait, p);
    }
    forall p ensures !Claims(after, p) {
      assert p in left ==> Follows(net, p, roles);
    }
    forall p ensures Heir(left, after, p) <==> p == roles.secondary.value {
      assert p in left ==> Follows(net, p, roles);
    }
  }

  /**
   * From any claims to a takeover: hosts that have converged and then lose their primary are led
   * by its secondary, and by nobody else in any schedule, exactly when no eligible host that is
   * left outranks it.
   */
  lemma TakeoverAfterConvergence(hosts: Hosts, wait: nat, net: Net, events: seq<Event>, l: seq<Candidate>)
    returns (roles: Roles)
    requires Settled(hosts, wait, net) && Legal(hosts, wait, net, events)
    requires Lists(hosts, net, l, None) && HasEligibleClaimant(l)
    requires forall p | p in hosts :: exists i :: 0 <= i < |events| && events[i].host == p
    ensures roles.primary.Some? && forall p | p in hosts :: Follows(Play(hosts, wait, net, events), p, roles)
    ensures roles.secondary.Some? ==>
              var d, s := roles.primary.value, roles.secondary.value;
              var left, after := hosts - {d}, Without(Play(hosts, wait, net, events), d);
              && Settled(left, wait, after)
              && ((forall more, p | Legal(left, wait, after, more) && Claims(Play(left, wait, after, more), p) ::
                p == s)
                  <==> IsTop(left, s))
  {
    hide Act, Follows, JustLost;
    roles := EveryoneAgrees(hosts, wait, net, events, l);
    if roles.secondary.Some? {
      var end := Play(hosts, wait, net, events);
      StaysSettled(hosts, wait, net, events);
      ThePrimaryLeaves(hosts, wait, end, roles);
      OldSecondaryTakesOverIffTop(hosts - {roles.primary.value}, wait, Without(end, roles.primary.value),
          roles.secondary.value);
    }
  }

  lemma {:induction false} StaysSettled(hosts: Hosts, wait: nat, net: Net, events: seq<Event>)
    requires Settled(hosts, wait, net) && Legal(hosts, wait, net, events)
    ensures Settled(hosts, wait, Play(hosts, wait, net, events))
    decreases |events|
  {
    hide Act;
    if events != [] {
      var l := Listing(hosts, net, None);
      SettledStep(hosts, wait, net, events[0], l);
      StaysSettled(hosts, wait, Act(hosts, wait, net, events[0]), events[1..]);
    }
  }
}
