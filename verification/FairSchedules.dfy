/**
 * Settled hosts without a primary claimant once more, in schedules in which every host keeps
 * stepping: when a primary must emerge, and when it may not.
 */
module FairSchedules {
  import opened Wrappers
  import opened Election
  import opened HelloProtocol
  import opened Elector
  import opened Network
  import opened ColdStart
  import opened Convergence
  import opened Succession

  ghost predicate Steps(events: seq<Event>, p: GrainId) {
    exists i :: 0 <= i < |events| && events[i].host == p
  }

  /** The schedule falls into `n` rounds, in each of which every host steps at least once. */
  ghost predicate InRounds(hosts: Hosts, events: seq<Event>, n: nat) {
    n == 0 || exists k :: 0 <= k <= |events|
                          && (forall p | p in hosts :: Steps(events[..k], p)) && InRounds(hosts, events[k..], n - 1)
  }

  /** Every schedule of so many rounds ends with a claim to the primary role. */
  ghost predicate AlwaysLed(hosts: Hosts, wait: nat, net: Net, n: nat)
    requires net.seats.Keys <= hosts.Keys
  {
    forall events | Legal(hosts, wait, net, events) && InRounds(hosts, events, n) ::
      SomebodyLeads(Play(hosts, wait, net, events))
  }

  /**
   * The best host `b` knows of an earlier primary and is no heir; the best heir `c` knows of none,
   * and another heir `d` does. A trap is this with `d` the second best.
   */
  ghost predicate OpensATrap(hosts: Hosts, net: Net, b: GrainId, c: GrainId, d: GrainId) {
    && IsTop(hosts, b) && Defers(net, b)
    && TopHeir(hosts, net, c, None) && !SeatIn(net, c).seen
    && Heir(hosts, net, d) && d != c && SeatIn(net, d).seen
  }

  ghost predicate MayBeTrapped(hosts: Hosts, net: Net) {
    exists b, c, d :: OpensATrap(hosts, net, b, c, d)
  }

  ghost predicate Defers(net: Net, b: GrainId) {
    SeatIn(net, b).seen && !SeatIn(net, b).secondary
  }

  /** An eligible host claims the primary role. */
  ghost predicate Led(hosts: Hosts, net: Net) {
    exists p :: CanLead(hosts, p) && Claims(net, p)
  }

  // ----- where a leaderless network can stand, from the nearest to a leader to the farthest -----

  /** The best host leads at its next step. */
  ghost predicate Sure(hosts: Hosts, net: Net, b: GrainId) {
    IsTop(hosts, b) && !Defers(net, b)
  }

  /** The best heir `c` leads at its next step, unless the best host stands by first. */
  ghost predicate Ready(hosts: Hosts, net: Net, b: GrainId, c: GrainId) {
    IsTop(hosts, b) && Defers(net, b) && TopHeir(hosts, net, c, None) && SeatIn(net, c).seen
  }

  /** The best heir defers to the best host, and so do the others, among `others`, who give up as they step. */
  ghost predicate Idle(hosts: Hosts, net: Net, b: GrainId, c: GrainId, others: set<GrainId>) {
    && IsTop(hosts, b) && Defers(net, b)
    && TopHeir(hosts, net, c, None) && !SeatIn(net, c).seen
    && forall p | Heir(hosts, net, p) && p != c :: !SeatIn(net, p).seen && p in others
  }

  ghost predicate NoHeirs(hosts: Hosts, net: Net, b: GrainId) {
    IsTop(hosts, b) && Defers(net, b) && forall p :: !Heir(hosts, net, p)
  }

  /** A primary is at most `k` rounds away, the first of which still waits for `todo`. */
  ghost predicate Phase(hosts: Hosts, net: Net, b: GrainId, k: nat, todo: set<GrainId>) {
    || Led(hosts, net)
    || (Leaderless(net) &&
        match k
        case 0 => false
        case 1 => Sure(hosts, net, b) && b in todo
        case 2 =>
          || Sure(hosts, net, b)
          || exists c :: (Ready(hosts, net, b, c) && c in todo) || (Idle(hosts, net, b, c, {}) && b in todo)
        case _ =>
          || Sure(hosts, net, b) || (NoHeirs(hosts, net, b) && b in todo)
          || exists c :: Ready(hosts, net, b, c) || Idle(hosts, net, b, c, todo))
  }

  // ----- one step -----

  lemma LedStays(hosts: Hosts, wait: nat, net: Net, e: Event)
    requires Settled(hosts, wait, net) && Possible(hosts, net, e) && Led(hosts, net)
    ensures Settled(hosts, wait, Act(hosts, wait, net, e)) && Led(hosts, Act(hosts, wait, net, e))
  {
    hide Act, Elect, Above;
    var l := Listing(hosts, net, None);
    var p :| CanLead(hosts, p) && Claims(net, p);
    assert Cand(hosts, net, p) in l && Eligible(Cand(hosts, net, p));
    SettledStep(hosts, wait, net, e, l);
    TheBestClaimantLeads(hosts, net, l);
    var d := Elect(l, true).primary.value;
    assert Claims(Act(hosts, wait, net, e), d);
  }

  /** A step elects an eligible host, `b` or the best heir, which leads if the step is its own. */
  lemma Elects(hosts: Hosts, wait: nat, net: Net, e: Event, b: GrainId) returns (roles: Roles)
    requires Settled(hosts, wait, net) && Possible(hosts, net, e) && Leaderless(net) && IsTop(hosts, b)
    ensures var net' := Act(hosts, wait, net, e);
            && Settled(hosts, wait, net')
            && (if roles.primary == Some(e.host) then Led(hosts, net') else Leaderless(net'))
            && (forall p | p != e.host :: SeatIn(net', p) == SeatIn(net, p))
            && (roles.primary != Some(e.host) ==> SeatIn(net', e.host).seen == SeatIn(net, e.host).seen)
            && (forall p | p != e.host :: Heir(hosts, net', p) == Heir(hosts, net, p))
            && (Heir(hosts, net', e.host) ==> roles.secondary == Some(e.host))
            && (SeatIn(net', e.host).secondary <==> roles.secondary == Some(e.host))
    ensures !SeatIn(net, e.host).seen || (forall p :: !Heir(hosts, net, p)) ==> roles.primary == Some(b)
    ensures forall c | TopHeir(hosts, net, c, None) && SeatIn(net, e.host).seen :: roles.primary == Some(c)
    ensures forall d | TopHeir(hosts, net, d, roles.primary) :: roles.secondary == Some(d)
    ensures roles.primary != Some(b) && (forall p | Heir(hosts, net, p) :: Some(p) == roles.primary) ==>
              roles.secondary == Some(b)
  {
    hide Act, IsTop, Above;
    roles := LeaderlessStep(hosts, wait, net, e);
    OtherHeirs(hosts, net, Act(hosts, wait, net, e), e.host);
    assert CanLead(hosts, b) by { TopCanLead(hosts, b); }
    if SeatIn(net, e.host).seen && exists p :: Heir(hosts, net, p) {
      var c := BestHeir(hosts, net, None);
      assert roles.primary == Some(c);
    }
    assert CanLead(hosts, roles.primary.value);
    if roles.primary == Some(e.host) {
      assert Claims(Act(hosts, wait, net, e), e.host);
    }
  }

  lemma TopCanLead(hosts: Hosts, b: GrainId)
    requires IsTop(hosts, b)
    ensures CanLead(hosts, b)
  {
  }

  lemma SureStep(hosts: Hosts, wait: nat, net: Net, e: Event, b: GrainId)
    requires Settled(hosts, wait, net) && Possible(hosts, net, e) && Leaderless(net) && Sure(hosts, net, b)
    ensures var net' := Act(hosts, wait, net, e);
            Led(hosts, net') || (Leaderless(net') && Sure(hosts, net', b) && e.host != b)
  {
    hide Act, Above, IsTop;
    var roles := Elects(hosts, wait, net, e, b);
    if e.host == b && SeatIn(net, b).seen {
      TopCanLead(hosts, b);
      var c := BestHeir(hosts, net, None);
      TopHeirIsTop(hosts, net, b, c);
    }
  }

  lemma ReadyStep(hosts: Hosts, wait: nat, net: Net, e: Event, b: GrainId, c: GrainId)
    requires Settled(hosts, wait, net) && Possible(hosts, net, e) && Leaderless(net) && Ready(hosts, net, b, c)
    ensures var net' := Act(hosts, wait, net, e);
            || Led(hosts, net')
            || (Leaderless(net') && (Sure(hosts, net', b) || (Ready(hosts, net', b, c) && e.host != c)))
  {
    hide Act, Above, IsTop;
    var roles := Elects(hosts, wait, net, e, b);
    OnlyTheseStandBy(hosts, net, e, b, c, roles);
  }

  /** While there is a best heir, a step makes nobody an heir but the best host and keeps at most the second best. */
  lemma OnlyTheseStandBy(hosts: Hosts, net: Net, e: Event, b: GrainId, c: GrainId, roles: Roles)
    requires IsTop(hosts, b) && Defers(net, b) && TopHeir(hosts, net, c, None)
    requires !SeatIn(net, e.host).seen ==> roles.primary == Some(b)
    requires SeatIn(net, e.host).seen ==> roles.primary == Some(c)
    requires forall d | TopHeir(hosts, net, d, roles.primary) :: roles.secondary == Some(d)
    requires roles.primary != Some(b) && (forall p | Heir(hosts, net, p) :: Some(p) == roles.primary) ==>
               roles.secondary == Some(b)
    ensures roles.primary == Some(b) ==> roles.secondary == Some(c)
    ensures roles.primary != Some(b) ==>
              || (roles.secondary == Some(b) && forall p | Heir(hosts, net, p) :: p == c)
              || exists d :: roles.secondary == Some(d) && d != c && Heir(hosts, net, d)
                             && TopHeir(hosts, net, d, Some(c))
  {
    hide IsTop, Above;
    if roles.primary == Some(b) {
      assert TopHeir(hosts, net, c, Some(b));
    } else if exists p :: Heir(hosts, net, p) && Some(p) != Some(c) {
      var d := BestHeir(hosts, net, Some(c));
    }
  }

  lemma IdleStep(hosts: Hosts, wait: nat, net: Net, e: Event, b: GrainId, c: GrainId, others: set<GrainId>)
    requires Settled(hosts, wait, net) && Possible(hosts, net, e) && Leaderless(net)
    requires Idle(hosts, net, b, c, others)
    ensures var net' := Act(hosts, wait, net, e);
            || Led(hosts, net')
            || (Leaderless(net') &&
                (Sure(hosts, net', b) ||
                 (Idle(hosts, net', b, c, others - {e.host}) && (others == {} ==> e.host != b))))
  {
    hide Act, Above, IsTop;
    var roles := Elects(hosts, wait, net, e, b);
    OnlyTheseStandBy(hosts, net, e, b, c, roles);
  }

  lemma NoHeirsStep(hosts: Hosts, wait: nat, net: Net, e: Event, b: GrainId)
    requires Settled(hosts, wait, net) && Possible(hosts, net, e) && Leaderless(net) && NoHeirs(hosts, net, b)
    ensures var net' := Act(hosts, wait, net, e);
            || Led(hosts, net')
            || (Leaderless(net') && e.host != b &&
                (NoHeirs(hosts, net', b) || Ready(hosts, net', b, e.host) || Idle(hosts, net', b, e.host, {})))
  {
    hide Act, Above, IsTop;
    var roles := Elects(hosts, wait, net, e, b);
    var net' := Act(hosts, wait, net, e);
    if e.host != b && Heir(hosts, net', e.host) {
      assert !Above(hosts, e.host, e.host) by { NotAboveItself(hosts, e.host); }
      assert TopHeir(hosts, net', e.host, None);
    }
  }

  lemma NotAboveItself(hosts: Hosts, p: GrainId)
    requires p in hosts
    ensures !Above(hosts, p, p)
  {
  }

  /** Every step keeps the phase, and strikes its host off the list. */
  lemma PhaseStep(hosts: Hosts, wait: nat, net: Net, e: Event, b: GrainId, k: nat, todo: set<GrainId>)
    requires Settled(hosts, wait, net) && Possible(hosts, net, e) && IsTop(hosts, b) && k <= 3
    requires Phase(hosts, net, b, k, todo)
    ensures Settled(hosts, wait, Act(hosts, wait, net, e))
    ensures Phase(hosts, Act(hosts, wait, net, e), b, k, todo - {e.host})
  {
    hide Act, Led, Sure, Ready, Idle, NoHeirs, IsTop;
    if Led(hosts, net) {
      LedStays(hosts, wait, net, e);
    } else {
      var roles := Elects(hosts, wait, net, e, b);
      if Sure(hosts, net, b) {
        SureStep(hosts, wait, net, e, b);
      } else if k == 3 && NoHeirs(hosts, net, b) && b in todo {
        NoHeirsStep(hosts, wait, net, e, b);
        if Idle(hosts, Act(hosts, wait, net, e), b, e.host, {}) {
          FewerOthers(hosts, Act(hosts, wait, net, e), b, e.host, {}, todo - {e.host});
        }
      } else if c :| Ready(hosts, net, b, c) && (k == 2 ==> c in todo) {
        ReadyStep(hosts, wait, net, e, b, c);
      } else if k == 2 {
        var c :| Idle(hosts, net, b, c, {});
        IdleStep(hosts, wait, net, e, b, c, {});
        assert {} - {e.host} == {};
      } else {
        var c :| Idle(hosts, net, b, c, todo);
        IdleStep(hosts, wait, net, e, b, c, todo);
      }
    }
  }

  lemma FewerOthers(hosts: Hosts, net: Net, b: GrainId, c: GrainId, some: set<GrainId>, more: set<GrainId>)
    requires Idle(hosts, net, b, c, some) && some <= more
    ensures Idle(hosts, net, b, c, more)
  {
  }

  // ----- whole rounds -----

  lemma {:induction false} RoundOfAPhase(hosts: Hosts, wait: nat, net: Net, events: seq<Event>, b: GrainId, k: nat,
                                         todo: set<GrainId>)
    requires Settled(hosts, wait, net) && Legal(hosts, wait, net, events) && IsTop(hosts, b) && k <= 3
    requires Phase(hosts, net, b, k, todo) && forall p | p in todo :: Steps(events, p)
    ensures Settled(hosts, wait, Play(hosts, wait, net, events))
    ensures Phase(hosts, Play(hosts, wait, net, events), b, k, {})
    decreases |events|
  {
    hide Act, Phase, IsTop, PastWait;
    if events == [] {
      if todo != {} {
        var p := Member(todo);
        assert false;
      }
    } else {
      var e := events[0];
      assert Possible(hosts, net, e);
      PhaseStep(hosts, wait, net, e, b, k, todo);
      forall p | p in todo - {e.host} ensures Steps(events[1..], p) {
        var i :| 0 <= i < |events| && events[i].host == p;
        assert events[1..][i - 1].host == p;
      }
      RoundOfAPhase(hosts, wait, Act(hosts, wait, net, e), events[1..], b, k, todo - {e.host});
    }
  }

  /** A round that waits for nobody any more has brought the primary one round closer. */
  lemma NextPhase(hosts: Hosts, net: Net, b: GrainId, k: nat)
    requires 0 < k <= 3 && Phase(hosts, net, b, k, {}) && IsTop(hosts, b)
    ensures Phase(hosts, net, b, k - 1, hosts.Keys)
  {
    hide Led, Above, Leaderless;
    assert b in hosts;
    assert forall c | Ready(hosts, net, b, c) :: c in hosts;
  }

  /** The first round of a schedule brings the network one phase nearer to a leader. */
  lemma NearerByARound(hosts: Hosts, wait: nat, net: Net, events: seq<Event>, b: GrainId, k: nat, n: nat)
    returns (next: Net, rest: seq<Event>)
    requires Settled(hosts, wait, net) && Legal(hosts, wait, net, events) && IsTop(hosts, b)
    requires 0 < k <= 3 && k <= n && InRounds(hosts, events, n) && Phase(hosts, net, b, k, hosts.Keys)
    ensures Settled(hosts, wait, next) && Legal(hosts, wait, next, rest) && InRounds(hosts, rest, n - 1)
    ensures Phase(hosts, next, b, k - 1, hosts.Keys)
    ensures Play(hosts, wait, net, events) == Play(hosts, wait, next, rest)
  {
    hide Act, IsTop, PastWait, Lists, Phase, Legal, Play, Steps;
    var i :| 0 <= i <= |events| && (forall p | p in hosts :: Steps(events[..i], p))
        && InRounds(hosts, events[i..], n - 1);
    rest := events[i..];
    assert events == events[..i] + rest;
    PlayParts(hosts, wait, net, events[..i], rest);
    next := Play(hosts, wait, net, events[..i]);
    RoundOfAPhase(hosts, wait, net, events[..i], b, k, hosts.Keys);
    NextPhase(hosts, next, b, k);
  }

  /** After as many rounds as its phase the network is led, and stays led. */
  lemma {:induction false} LedInTime(hosts: Hosts, wait: nat, net: Net, events: seq<Event>, b: GrainId, k: nat, n: nat)
    requires Settled(hosts, wait, net) && Legal(hosts, wait, net, events) && IsTop(hosts, b)
    requires k <= 3 && k <= n && InRounds(hosts, events, n) && Phase(hosts, net, b, k, hosts.Keys)
    ensures Led(hosts, Play(hosts, wait, net, events))
    decreases n
  {
    hide Act, IsTop, PastWait, Led, Lists, Phase, Legal, Play, InRounds;
    if k == 0 {
      LedFromTheStart(hosts, net, b);
      RoundOfAPhase(hosts, wait, net, events, b, 0, {});
      LedFromTheStart(hosts, Play(hosts, wait, net, events), b);
    } else {
      var next, rest := NearerByARound(hosts, wait, net, events, b, k, n);
      LedInTime(hosts, wait, next, rest, b, k - 1, n - 1);
    }
  }

  lemma LedFromTheStart(hosts: Hosts, net: Net, b: GrainId)
    ensures forall todo :: Phase(hosts, net, b, 0, todo) <==> Led(hosts, net)
  {
  }

  lemma {:induction false} PlayParts(hosts: Hosts, wait: nat, net: Net, a: seq<Event>, more: seq<Event>)
    requires net.seats.Keys <= hosts.Keys
    ensures Legal(hosts, wait, net, a + more) <==>
            Legal(hosts, wait, net, a) && Legal(hosts, wait, Play(hosts, wait, net, a), more)
    ensures Legal(hosts, wait, net, a + more) ==>
              Play(hosts, wait, net, a + more) == Play(hosts, wait, Play(hosts, wait, net, a), more)
    decreases |a|
  {
    hide Turn, Lists;
    if a == [] {
      assert a + more == more;
    } else if Possible(hosts, net, a[0]) {
      assert (a + more)[0] == a[0] && (a + more)[1..] == a[1..] + more;
      PlayParts(hosts, wait, Act(hosts, wait, net, a[0]), a[1..], more);
    }
  }

  // ----- into the trap -----

  /** The heirs that have seen no claim give up one by one, until the second best of those left has seen one. */
  lemma {:induction false} IntoTheTrap(hosts: Hosts, wait: nat, net: Net, b: GrainId, c: GrainId, d: GrainId)
    returns (events: seq<Event>)
    requires Settled(hosts, wait, net) && Leaderless(net) && OpensATrap(hosts, net, b, c, d)
    ensures Legal(hosts, wait, net, events)
    ensures var end := Play(hosts, wait, net, events);
            Settled(hosts, wait, end) && Leaderless(end) && Trapped(hosts, end)
    decreases Heirs(hosts, net)
  {
    hide Act, Above, IsTop, Settled, Leaderless;
    var next := BestHeir(hosts, net, Some(c));
    if SeatIn(net, next).seen {
      events := [];
      assert TrappedBy(hosts, net, b, c, next);
    } else {
      var e := StepNow(hosts, wait, net, next);
      var net' := Act(hosts, wait, net, e);
      HeirGivesUp(hosts, wait, net, e, b, c, next);
      forall p ensures Heir(hosts, net', p) <==> Heir(hosts, net, p) && p != next {
        assert p in Heirs(hosts, net') <==> p in Heirs(hosts, net) - {next};
      }
      assert next in Heirs(hosts, net);
      var more := IntoTheTrap(hosts, wait, net', b, c, d);
      events := [e] + more;
      assert events[0] == e && events[1..] == more;
    }
  }

  /** Every host of `todo` can step, in some order. */
  lemma {:induction false} SomeRound(hosts: Hosts, wait: nat, net: Net, todo: set<GrainId>) returns (events: seq<Event>)
    requires Settled(hosts, wait, net) && todo <= hosts.Keys
    ensures Legal(hosts, wait, net, events) && Settled(hosts, wait, Play(hosts, wait, net, events))
    ensures forall p | p in todo :: Steps(events, p)
    decreases todo
  {
    hide Act, PastWait;
    events := [];
    if todo != {} {
      var p := Member(todo);
      var e := StepNow(hosts, wait, net, p);
      var l := Listing(hosts, net, None);
      SettledStep(hosts, wait, net, e, l);
      var more := SomeRound(hosts, wait, Act(hosts, wait, net, e), todo - {p});
      events := [e] + more;
      assert events[0] == e && events[1..] == more;
      forall q | q in todo ensures Steps(events, q) {
        if q == p {
          assert events[0].host == p;
        } else {
          assert Steps(more, q);
          var i :| 0 <= i < |more| && more[i].host == q;
          assert events[i + 1].host == q;
        }
      }
    }
  }

  lemma {:induction false} SomeSchedule(hosts: Hosts, wait: nat, net: Net, n: nat) returns (events: seq<Event>)
    requires Settled(hosts, wait, net)
    ensures Legal(hosts, wait, net, events) && InRounds(hosts, events, n)
    decreases n
  {
    hide Act, Settled;
    events := [];
    if n > 0 {
      var first := SomeRound(hosts, wait, net, hosts.Keys);
      var more := SomeSchedule(hosts, wait, Play(hosts, wait, net, first), n - 1);
      events := first + more;
      PlayParts(hosts, wait, net, first, more);
      assert events[..|first|] == first && events[|first|..] == more;
    }
  }

  /** More steps before a schedule belong to its first round. */
  lemma EarlierSteps(hosts: Hosts, before: seq<Event>, events: seq<Event>, n: nat)
    requires InRounds(hosts, events, n) && n > 0
    ensures InRounds(hosts, before + events, n)
  {
    var k :| 0 <= k <= |events| && (forall p | p in hosts :: Steps(events[..k], p))
        && InRounds(hosts, events[k..], n - 1);
    var all := before + events;
    var m := |before| + k;
    assert all[m..] == events[k..] && all[..m] == before + events[..k];
    forall p | p in hosts ensures Steps(all[..m], p) {
      var i :| 0 <= i < k && events[..k][i].host == p;
      assert all[..m][|before| + i].host == p;
    }
  }

  lemma NeverLed(hosts: Hosts, wait: nat, net: Net, n: nat)
    requires Settled(hosts, wait, net) && Leaderless(net) && MayBeTrapped(hosts, net) && n > 0
    ensures !AlwaysLed(hosts, wait, net, n)
  {
    hide Act, Settled, OpensATrap, Trapped;
    var b, c, d :| OpensATrap(hosts, net, b, c, d);
    var before := IntoTheTrap(hosts, wait, net, b, c, d);
    var trapped := Play(hosts, wait, net, before);
    var events := SomeSchedule(hosts, wait, trapped, n);
    TrappedForEver(hosts, wait, trapped, events);
    PlayParts(hosts, wait, net, before, events);
    EarlierSteps(hosts, before, events, n);
    assert !SomebodyLeads(Play(hosts, wait, net, before + events));
  }

  lemma FirstPhase(hosts: Hosts, net: Net, b: GrainId)
    requires Leaderless(net) && IsTop(hosts, b) && !MayBeTrapped(hosts, net)
    ensures Phase(hosts, net, b, 3, hosts.Keys)
  {
    hide Above, IsTop, Leaderless;
    TopCanLead(hosts, b);
    if !Sure(hosts, net, b) && !NoHeirs(hosts, net, b) {
      var c := BestHeir(hosts, net, None);
      if !SeatIn(net, c).seen {
        forall p | Heir(hosts, net, p) && p != c ensures !SeatIn(net, p).seen {
          assert !OpensATrap(hosts, net, b, c, p);
        }
        assert Idle(hosts, net, b, c, hosts.Keys);
      } else {
        assert Ready(hosts, net, b, c);
      }
    }
  }

  /**
   * Hosts that lost their primary are sure to get one, whatever the order in which they step, if
   * and only if the trap is not open; three rounds in which each host steps are then enough, and
   * otherwise no number of rounds is.
   */
  lemma AlwaysLedIff(hosts: Hosts, wait: nat, net: Net, n: nat)
    requires Settled(hosts, wait, net) && Leaderless(net)
    requires n >= 3 && exists p :: CanLead(hosts, p)
    ensures AlwaysLed(hosts, wait, net, n) <==> !MayBeTrapped(hosts, net)
  {
    hide Act, MayBeTrapped, Play, InRounds;
    if MayBeTrapped(hosts, net) {
      NeverLed(hosts, wait, net, n);
    } else {
      var able := set p | p in hosts && CanLead(hosts, p);
      var p :| CanLead(hosts, p);
      assert p in able;
      var b := TopExists(hosts, able);
      assert IsTop(hosts, b);
      FirstPhase(hosts, net, b);
      forall events | Legal(hosts, wait, net, events) && InRounds(hosts, events, n)
        ensures SomebodyLeads(Play(hosts, wait, net, events))
      {
        LedInTime(hosts, wait, net, events, b, 3, n);
      }
    }
  }
}
