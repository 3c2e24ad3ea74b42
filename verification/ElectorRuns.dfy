/** One elector over any run of rounds, whatever its peers say: stale, made up or hostile. */
module ElectorRuns {
  import opened Wrappers
  import opened Election
  import opened HelloProtocol
  import opened Elector

  /** What one round is given. */
  datatype Input = Input(now: int, own: Own, peers: seq<Hello>)

  function Last(inputs: seq<Input>): Input
    requires inputs != []
  {
    inputs[|inputs| - 1]
  }

  /** The seat for `ws` after the rounds `inputs`, from a new elector. */
  function SeatAfter(me: GrainId, wait: nat, inputs: seq<Input>, ws: GrainId): Seat {
    if inputs == [] then VACANT
    else Round(me, wait, Last(inputs).now, Last(inputs).own, Last(inputs).peers,
        SeatAfter(me, wait, inputs[..|inputs| - 1], ws), ws).0
  }

  /** The seat the last round started from. */
  function SeatBefore(me: GrainId, wait: nat, inputs: seq<Input>, ws: GrainId): Seat
    requires inputs != []
  {
    Opened(SeatAfter(me, wait, inputs[..|inputs| - 1], ws), Last(inputs).own, ws, Last(inputs).now)
  }

  ghost predicate Monotone(inputs: seq<Input>) {
    forall i, j | 0 <= i < j < |inputs| :: inputs[i].now <= inputs[j].now
  }

  /** `ws` has been hosted in every round from the `j`-th to the last. */
  ghost predicate HostedFrom(inputs: seq<Input>, ws: GrainId, j: nat) {
    j < |inputs| && forall k | j <= k < |inputs| :: ws in inputs[k].own.hosting
  }

  /** This host, as it stands in the last election of `ws`. */
  function Self(me: GrainId, wait: nat, inputs: seq<Input>, ws: GrainId): Candidate
    requires inputs != []
  {
    SelfCandidate(me, Last(inputs).own.priority, Last(inputs).own.availability, SeatBefore(me, wait, inputs, ws))
  }

  /** The last round hears `c`, another host of `ws` that may hold the primary role and claims it. */
  ghost predicate HearsClaim(me: GrainId, inputs: seq<Input>, ws: GrainId, c: Candidate)
    requires inputs != []
  {
    Claimant(CandidatesFor(Last(inputs).peers, me, ws), c)
  }

  ghost predicate HearsAHigherClaim(me: GrainId, wait: nat, inputs: seq<Input>, ws: GrainId)
    requires inputs != []
  {
    exists c :: HearsClaim(me, inputs, ws, c) && Outranks(c, Self(me, wait, inputs, ws))
  }

  // ----- what one round does to a seat, however often it votes on the workspace -----

  /** A seat whose wait is over at `now`. */
  ghost predicate Waited(seat: Seat, wait: nat, now: int) {
    seat.since.Some? && Elapsed(seat.since.value, now) >= wait
  }

  lemma TurnClaims(me: GrainId, own: Own, wait: nat, now: int, seat: Seat, peers: seq<Candidate>)
    requires seat.since.Some?
    requires forall c | c in peers :: c.deviceId != me
    requires !(seat.primary && seat.secondary)
    ensures var self := SelfCandidate(me, own.priority, own.availability, seat);
            var next := Turn(me, own.priority, own.availability, wait, now, seat, peers).0;
            && next.since == seat.since
            && !(next.primary && next.secondary)
            && (!Waited(seat, wait, now) ==> next.primary == seat.primary && next.secondary == seat.secondary)
            && (next.primary && !seat.primary ==> Eligible(self) && forall c :: !Claimant(peers, c))
            && (seat.primary && Waited(seat, wait, now) ==>
                  (next.primary <==> Eligible(self) && forall c | Claimant(peers, c) :: !Outranks(c, self)))
  {
    hide Outranks, Elect;
    var self := SelfCandidate(me, own.priority, own.availability, seat);
    var all := peers + [self];
    var promote := seat.seen || exists c :: c in all && c.claimsPrimary;
    StandingAmongPeers(peers, self, promote);
    ElectedAreEligible(all, promote);
  }

  lemma {:induction false} TurnsClaims(me: GrainId, own: Own, wait: nat, now: int, seat: Seat, peers: seq<Candidate>,
                                       n: nat)
    requires seat.since.Some?
    requires forall c | c in peers :: c.deviceId != me
    requires !(seat.primary && seat.secondary)
    ensures var self := SelfCandidate(me, own.priority, own.availability, seat);
            var next := Turns(me, own, wait, now, seat, peers, n).0;
            && next.since == seat.since
            && !(next.primary && next.secondary)
            && (!Waited(seat, wait, now) ==> next.primary == seat.primary && next.secondary == seat.secondary)
            && (next.primary && !seat.primary ==> Eligible(self) && forall c :: !Claimant(peers, c))
            && (n > 0 && seat.primary && Waited(seat, wait, now) ==>
                  (next.primary <==> Eligible(self) && forall c | Claimant(peers, c) :: !Outranks(c, self)))
  {
    hide Turn, Elect;
    if n > 0 {
      TurnsClaims(me, own, wait, now, seat, peers, n - 1);
      TurnClaims(me, own, wait, now, Turns(me, own, wait, now, seat, peers, n - 1).0, peers);
    }
  }

  // ----- every run -----

  lemma OthersOnly(peers: seq<Hello>, me: GrainId, ws: GrainId)
    ensures forall c | c in CandidatesFor(peers, me, ws) :: c.deviceId != me
  {
  }

  lemma RoundClaims(me: GrainId, wait: nat, inputs: seq<Input>, ws: GrainId)
    requires inputs != []
    requires !(SeatBefore(me, wait, inputs, ws).primary && SeatBefore(me, wait, inputs, ws).secondary)
    ensures var before, after := SeatBefore(me, wait, inputs, ws), SeatAfter(me, wait, inputs, ws);
            && (ws !in Last(inputs).own.hosting ==> after == VACANT)
            && after.since == before.since
            && !(after.primary && after.secondary)
            && (!Waited(before, wait, Last(inputs).now) ==>
                after.primary == before.primary && after.secondary == before.secondary)
            && (after.primary && !before.primary ==> forall c :: !HearsClaim(me, inputs, ws, c))
  {
    hide Turn, Elect, CandidatesFor, Outranks;
    var input := Last(inputs);
    if ws in input.own.hosting {
      assert multiset(input.own.hosting)[ws] > 0;
      OthersOnly(input.peers, me, ws);
      TurnsClaims(me, input.own, wait, input.now, SeatBefore(me, wait, inputs, ws), CandidatesFor(input.peers, me, ws),
          multiset(input.own.hosting)[ws]);
    }
  }

  lemma RoundKeeps(me: GrainId, wait: nat, inputs: seq<Input>, ws: GrainId)
    requires inputs != []
    requires SeatBefore(me, wait, inputs, ws).primary && !SeatBefore(me, wait, inputs, ws).secondary
    requires Waited(SeatBefore(me, wait, inputs, ws), wait, Last(inputs).now)
    ensures SeatAfter(me, wait, inputs, ws).primary <==>
        Last(inputs).own.priority > 0 && !HearsAHigherClaim(me, wait, inputs, ws)
  {
    hide Turn, Turns, Elect, CandidatesFor, Outranks, Claimant;
    var input := Last(inputs);
    assert multiset(input.own.hosting)[ws] > 0;
    OthersOnly(input.peers, me, ws);
    var peers := CandidatesFor(input.peers, me, ws);
    TurnsClaims(me, input.own, wait, input.now, SeatBefore(me, wait, inputs, ws), peers,
        multiset(input.own.hosting)[ws]);
    if HearsAHigherClaim(me, wait, inputs, ws) {
      var c :| HearsClaim(me, inputs, ws, c) && Outranks(c, Self(me, wait, inputs, ws));
      assert Claimant(peers, c);
    } else {
      forall c | Claimant(peers, c) ensures !Outranks(c, Self(me, wait, inputs, ws)) {
        assert HearsClaim(me, inputs, ws, c);
      }
    }
  }

  /** A host never claims both roles of one workspace. */
  lemma {:induction false} NeverBothRoles(me: GrainId, wait: nat, inputs: seq<Input>, ws: GrainId)
    ensures !(SeatAfter(me, wait, inputs, ws).primary && SeatAfter(me, wait, inputs, ws).secondary)
    ensures inputs != [] ==> !(SeatBefore(me, wait, inputs, ws).primary && SeatBefore(me, wait, inputs, ws).secondary)
  {
    if inputs != [] {
      NeverBothRoles(me, wait, inputs[..|inputs| - 1], ws);
      RoundClaims(me, wait, inputs, ws);
    }
  }

  /** It never newly takes the primary role while it hears another eligible host claim it. */
  lemma NeverTakesAHeldRole(me: GrainId, wait: nat, inputs: seq<Input>, ws: GrainId)
    requires inputs != []
    requires SeatAfter(me, wait, inputs, ws).primary && !SeatBefore(me, wait, inputs, ws).primary
    ensures forall c :: !HearsClaim(me, inputs, ws, c)
  {
    NeverBothRoles(me, wait, inputs, ws);
    RoundClaims(me, wait, inputs, ws);
  }

  /** The dated stretch of hosting behind a seat. */
  lemma {:induction false} SinceIsContinuous(me: GrainId, wait: nat, inputs: seq<Input>, ws: GrainId) returns (j: nat)
    requires inputs != [] && ws in Last(inputs).own.hosting
    ensures HostedFrom(inputs, ws, j)
    ensures j == 0 || ws !in inputs[j - 1].own.hosting
    ensures SeatAfter(me, wait, inputs, ws).since == Some(inputs[j].now)
  {
    hide Turn, Elect, CandidatesFor;
    var front := inputs[..|inputs| - 1];
    NeverBothRoles(me, wait, inputs, ws);
    RoundClaims(me, wait, inputs, ws);
    if front != [] && ws in Last(front).own.hosting {
      j := SinceIsContinuous(me, wait, front, ws);
      assert forall k | 0 <= k < |front| :: front[k] == inputs[k];
    } else {
      j := |inputs| - 1;
      if front != [] {
        NeverBothRoles(me, wait, front, ws);
        RoundClaims(me, wait, front, ws);
        assert Last(front) == inputs[|inputs| - 2];
      }
    }
  }

  /**
   * Behind every claim lies an unbroken stretch of rounds hosting the workspace, at least as long
   * as the wait.
   */
  lemma {:induction false} ClaimsOnlyAfterTheWait(me: GrainId, wait: nat, inputs: seq<Input>, ws: GrainId)
    returns (j: nat)
    requires Monotone(inputs)
    requires SeatAfter(me, wait, inputs, ws).primary || SeatAfter(me, wait, inputs, ws).secondary
    ensures HostedFrom(inputs, ws, j)
    ensures Last(inputs).now - inputs[j].now >= wait
    ensures SeatAfter(me, wait, inputs, ws).since == Some(inputs[j].now)
  {
    NeverBothRoles(me, wait, inputs, ws);
    RoundClaims(me, wait, inputs, ws);
    j := SinceIsContinuous(me, wait, inputs, ws);
    assert j < |inputs| - 1 ==> inputs[j].now <= Last(inputs).now;
    if !Waited(SeatBefore(me, wait, inputs, ws), wait, Last(inputs).now) {
      ClaimedBefore(me, wait, inputs, ws);
      var front := inputs[..|inputs| - 1];
      var i := ClaimsOnlyAfterTheWait(me, wait, front, ws);
      assert front[i].now == inputs[i].now && Last(front).now <= Last(inputs).now;
    }
  }

  lemma ClaimedBefore(me: GrainId, wait: nat, inputs: seq<Input>, ws: GrainId)
    requires Monotone(inputs) && inputs != []
    requires SeatAfter(me, wait, inputs, ws).primary || SeatAfter(me, wait, inputs, ws).secondary
    requires !Waited(SeatBefore(me, wait, inputs, ws), wait, Last(inputs).now)
    ensures var front := inputs[..|inputs| - 1];
            && front != [] && Monotone(front)
            && (SeatAfter(me, wait, front, ws).primary || SeatAfter(me, wait, front, ws).secondary)
            && SeatBefore(me, wait, inputs, ws).since == SeatAfter(me, wait, front, ws).since
  {
    hide Turn, Elect, CandidatesFor;
    NeverBothRoles(me, wait, inputs, ws);
    RoundClaims(me, wait, inputs, ws);
    var front := inputs[..|inputs| - 1];
    if front != [] && ws in Last(front).own.hosting {
      var i := SinceIsContinuous(me, wait, front, ws);
    } else if front != [] {
      NeverBothRoles(me, wait, front, ws);
      RoundClaims(me, wait, front, ws);
    }
  }

  /**
   * A host that holds the primary role keeps it in the next round exactly when it still hosts
   * the workspace with a nonzero priority and hears no higher-ranked eligible claimant.
   */
  lemma KeepsThePrimaryRole(me: GrainId, wait: nat, inputs: seq<Input>, ws: GrainId)
    requires Monotone(inputs) && inputs != []
    requires SeatAfter(me, wait, inputs[..|inputs| - 1], ws).primary
    ensures SeatAfter(me, wait, inputs, ws).primary <==>
            && ws in Last(inputs).own.hosting
            && Last(inputs).own.priority > 0
            && !HearsAHigherClaim(me, wait, inputs, ws)
  {
    var front := inputs[..|inputs| - 1];
    assert Monotone(front);
    var j := ClaimsOnlyAfterTheWait(me, wait, front, ws);
    assert Last(front).now <= Last(inputs).now;
    if ws in Last(inputs).own.hosting {
      NeverBothRoles(me, wait, inputs, ws);
      RoundKeeps(me, wait, inputs, ws);
    }
  }

  /** One election names only this host and eligible peers. */
  lemma TurnNames(me: GrainId, own: Own, wait: nat, now: int, seat: Seat, peers: seq<Candidate>, id: GrainId)
    requires var roles := Turn(me, own.priority, own.availability, wait, now, seat, peers).1;
             roles.primary == Some(id) || roles.secondary == Some(id)
    ensures id == me || exists c :: c in peers && Eligible(c) && c.deviceId == id
  {
    hide Outranks, Elect;
    var candidates := peers + [SelfCandidate(me, own.priority, own.availability, seat)];
    ElectedAreEligible(peers, seat.seen || exists c :: c in peers && c.claimsPrimary);
    ElectedAreEligible(candidates, seat.seen || exists c :: c in candidates && c.claimsPrimary);
  }

  /**
   * Behind the ledger's filter, the roles a host reports name only itself or an active device of
   * the ledger among the hosts it heard hosting the workspace. A retired device that can still be
   * heard is never named.
   */
  lemma ReportsNameTheLedgerOnly(me: GrainId, wait: nat, now: int, own: Own, heard: seq<Hello>, ledger: seq<Device>,
                                 seat: Seat, ws: GrainId, id: GrainId)
    requires var roles := Round(me, wait, now, own, Electable(heard, ledger), seat, ws).1;
             roles.primary == Some(id) || roles.secondary == Some(id)
    ensures id != me ==>
              && Active(ledger, id)
              && exists h :: h in heard && h.deviceId == id && ws in h.hosting && h.priority > 0
  {
    hide Outranks, Turn, Elect;
    var peers := CandidatesFor(Electable(heard, ledger), me, ws);
    var n := multiset(own.hosting)[ws];
    assert n > 0;
    TurnNames(me, own, wait, now, Turns(me, own, wait, now, Opened(seat, own, ws, now), peers, n - 1).0, peers, id);
    if id != me {
      var c :| c in peers && Eligible(c) && c.deviceId == id;
      assert c in peers;
      var h :| h in Electable(heard, ledger) && h.deviceId != me && ws in h.hosting && c == Standing(h, ws);
      assert h in heard && h.deviceId == id && ws in h.hosting && h.priority > 0;
    }
  }
}
