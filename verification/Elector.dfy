/** The stateful elector, and the per-workspace function that each of its rounds computes. */
module Elector {
  import opened Wrappers
  import opened Election
  import opened HelloProtocol

  /** A host's own rank and workspaces, as a round is given them. */
  datatype Own = Own(priority: U8, availability: Option<U8>, hosting: seq<GrainId>)

  /** Everything an elector remembers about one workspace. */
  datatype Seat = Seat(since: Option<int>, primary: bool, seen: bool, secondary: bool)

  const VACANT := Seat(None, false, false, false)

  function SelfCandidate(me: GrainId, priority: U8, availability: Option<U8>, seat: Seat): Candidate {
    Candidate(me, priority, availability, seat.primary, seat.secondary)
  }

  /** The other hosts of `ws`, as candidates for it. */
  function CandidatesFor(peers: seq<Hello>, me: GrainId, ws: GrainId): (r: seq<Candidate>)
    ensures forall c :: c in r ==> exists h :: h in peers && h.deviceId != me && ws in h.hosting && c == Standing(h, ws)
    ensures forall h | h in peers && h.deviceId != me && ws in h.hosting :: Standing(h, ws) in r
  {
    if peers == [] then []
    else
      var rest := CandidatesFor(peers[1..], me, ws);
      assert peers == [peers[0]] + peers[1..];
      if peers[0].deviceId != me && ws in peers[0].hosting then [Standing(peers[0], ws)] + rest else rest
  }

  function Standing(h: Hello, ws: GrainId): Candidate {
    Candidate(h.deviceId, h.priority, h.availability, ws in h.primary, ws in h.secondary)
  }

  /**
   * The next seat of one workspace, with what is reported of it.
   *
   * A host younger than the wait does not stand and keeps the claims it had. Whatever is elected,
   * only a seat that has seen a primary claim reports anything but `MESH`.
   */
  function Turn(me: GrainId, priority: U8, availability: Option<U8>, wait: nat, now: int,
                seat: Seat, peers: seq<Candidate>): (Seat, Roles)
  {
    var since := if seat.since.Some? then seat.since.value else now;
    var waited := Elapsed(since, now) >= wait;
    var candidates := if waited then peers + [SelfCandidate(me, priority, availability, seat)] else peers;
    var heard := seat.seen || exists c :: c in candidates && c.claimsPrimary;
    var elected := Elect(candidates, heard);
    var primary := if waited then elected.primary == Some(me) else seat.primary;
    var secondary := if waited then elected.secondary == Some(me) else seat.secondary;
    var seen := heard || primary;
    (Seat(Some(since), primary, seen, secondary), if seen then elected else MESH)
  }

  /** A workspace listed `n` times among the hosted ones is elected `n` times in a row. */
  function Turns(me: GrainId, own: Own, wait: nat, now: int, seat: Seat, peers: seq<Candidate>, n: nat): (Seat, Roles) {
    if n == 0 then (seat, MESH)
    else Turn(me, own.priority, own.availability, wait, now, Turns(me, own, wait, now, seat, peers, n - 1).0, peers)
  }

  /** The seat for `ws` as a round starts: forgotten when it is no longer hosted, dated when it newly is. */
  function Opened(seat: Seat, own: Own, ws: GrainId, now: int): Seat {
    if ws !in own.hosting then VACANT
    else if seat.since.None? then seat.(since := Some(now))
    else seat
  }

  /** The seat for `ws` after one round. */
  function Round(me: GrainId, wait: nat, now: int, own: Own, peers: seq<Hello>, seat: Seat, ws: GrainId)
    : (Seat, Roles)
  {
    Turns(me, own, wait, now, Opened(seat, own, ws, now), CandidatesFor(peers, me, ws), multiset(own.hosting)[ws])
  }

  /** The same once the first `i` hosted workspaces have been elected. */
  ghost function RoundSoFar(me: GrainId, wait: nat, now: int, own: Own, peers: seq<Hello>, seat: Seat, ws: GrainId,
                            i: nat): (Seat, Roles)
    requires i <= |own.hosting|
  {
    Turns(me, own, wait, now, Opened(seat, own, ws, now), CandidatesFor(peers, me, ws), multiset(own.hosting[..i])[ws])
  }

  lemma OneMoreTurn(me: GrainId, wait: nat, now: int, own: Own, peers: seq<Hello>, seat: Seat, ws: GrainId, i: nat)
    requires i < |own.hosting|
    ensures RoundSoFar(me, wait, now, own, peers, seat, ws, i + 1) ==
            if ws != own.hosting[i] then RoundSoFar(me, wait, now, own, peers, seat, ws, i)
            else Turn(me, own.priority, own.availability, wait, now,
                      RoundSoFar(me, wait, now, own, peers, seat, ws, i).0, CandidatesFor(peers, me, ws))
  {
    hide Turn, CandidatesFor, Elect, Opened;
    assert own.hosting[..i + 1] == own.hosting[..i] + [own.hosting[i]];
  }

  lemma WholeRound(me: GrainId, wait: nat, now: int, own: Own, peers: seq<Hello>, seat: Seat, ws: GrainId)
    ensures RoundSoFar(me, wait, now, own, peers, seat, ws, |own.hosting|) == Round(me, wait, now, own, peers, seat, ws)
    ensures RoundSoFar(me, wait, now, own, peers, seat, ws, 0) == (Opened(seat, own, ws, now), MESH)
  {
    assert own.hosting[..|own.hosting|] == own.hosting;
  }

  class Elector {
    const me: GrainId
    const wait: nat
    var since: map<GrainId, int>
    var primary: set<GrainId>
    var seenPrimary: set<GrainId>
    var secondary: set<GrainId>

    function SeatOf(ws: GrainId): Seat
      reads this
    {
      Seat(if ws in since then Some(since[ws]) else None, ws in primary, ws in seenPrimary, ws in secondary)
    }

    constructor (me: GrainId, wait: nat)
      ensures this.me == me && this.wait == wait
      ensures forall ws :: SeatOf(ws) == VACANT
    {
      this.me, this.wait := me, wait;
      since, primary, seenPrimary, secondary := map[], {}, {}, {};
    }

    /** Forget what is no longer hosted, and date what newly is. */
    method Open(now: int, own: Own)
      modifies this
      ensures forall ws :: SeatOf(ws) == Opened(old(SeatOf(ws)), own, ws, now)
      ensures forall ws | ws in own.hosting :: ws in since
    {
      since := map ws | ws in since && ws in own.hosting :: since[ws];
      for i := 0 to |own.hosting|
        invariant unchanged(`primary) && unchanged(`seenPrimary) && unchanged(`secondary)
        invariant since.Keys <= set ws | ws in own.hosting
        invariant forall ws | ws in since :: since[ws] == if ws in old(since) then old(since[ws]) else now
        invariant forall ws | ws in own.hosting[..i] || (ws in own.hosting && ws in old(since)) :: ws in since
      {
        if own.hosting[i] !in since {
          since := since[own.hosting[i] := now];
        }
      }
      assert own.hosting[..|own.hosting|] == own.hosting;
      primary := set ws | ws in primary && ws in own.hosting;
      seenPrimary := set ws | ws in seenPrimary && ws in own.hosting;
      secondary := set ws | ws in secondary && ws in own.hosting;
    }

    /** A round over all hosted workspaces in order: every seat takes its `Round`. */
    method Step(now: int, own: Own, peers: seq<Hello>) returns (hello: Hello, roles: map<GrainId, Roles>)
      modifies this
      ensures forall ws :: SeatOf(ws) == Round(me, wait, now, own, peers, old(SeatOf(ws)), ws).0
      ensures hello == Hello(me, own.priority, own.availability, own.hosting, primary, secondary)
      ensures roles.Keys == set ws | ws in own.hosting
      ensures forall ws | ws in own.hosting :: roles[ws] == Round(me, wait, now, own, peers, old(SeatOf(ws)), ws).1
    {
      hide Turn, CandidatesFor, Elect, Opened, RoundSoFar, Round;
      forall ws {
        WholeRound(me, wait, now, own, peers, SeatOf(ws), ws);
      }
      Open(now, own);
      roles := map[];
      for i := 0 to |own.hosting|
        invariant forall ws | ws in own.hosting :: ws in since
        invariant forall ws :: SeatOf(ws) == RoundSoFar(me, wait, now, own, peers, old(SeatOf(ws)), ws, i).0
        invariant roles.Keys == set ws | ws in own.hosting[..i]
        invariant forall ws | ws in own.hosting[..i] ::
          roles[ws] == RoundSoFar(me, wait, now, own, peers, old(SeatOf(ws)), ws, i).1
      {
        var ws := own.hosting[i];
        assert own.hosting[..i + 1] == own.hosting[..i] + [ws];
        var report := Vote(now, own, peers, ws);
        roles := roles[ws := report];
        forall other ensures (SeatOf(other), if other == ws then report
          else RoundSoFar(me, wait, now, own, peers, old(SeatOf(other)), other, i).1)
                             == RoundSoFar(me, wait, now, own, peers, old(SeatOf(other)), other, i + 1) {
          OneMoreTurn(me, wait, now, own, peers, old(SeatOf(other)), other, i);
        }
      }
      assert own.hosting[..|own.hosting|] == own.hosting;
      hello := Hello(me, own.priority, own.availability, own.hosting, primary, secondary);
    }

    /** The body of the round for one workspace. */
    method Vote(now: int, own: Own, peers: seq<Hello>, ws: GrainId) returns (reported: Roles)
      requires ws in since
      modifies this`primary, this`seenPrimary, this`secondary
      ensures since == old(since)
      ensures (SeatOf(ws), reported) ==
          Turn(me, own.priority, own.availability, wait, now, old(SeatOf(ws)), CandidatesFor(peers, me, ws))
      ensures forall other | other != ws :: SeatOf(other) == old(SeatOf(other))
    {
      hide Elect, CandidatesFor;
      var waited := Elapsed(since[ws], now) >= wait;
      var candidates := CandidatesFor(peers, me, ws);
      if waited {
        candidates := candidates + [SelfCandidate(me, own.priority, own.availability, SeatOf(ws))];
      }
      if exists c :: c in candidates && c.claimsPrimary {
        seenPrimary := seenPrimary + {ws};
      }
      var elected := Elect(candidates, ws in seenPrimary);
      if waited {
        primary := if elected.primary == Some(me) then primary + {ws} else primary - {ws};
        secondary := if elected.secondary == Some(me) then secondary + {ws} else secondary - {ws};
      }
      if ws in primary {
        seenPrimary := seenPrimary + {ws};
      }
      reported := if ws in seenPrimary then elected else MESH;
      assert SeatOf(ws).since == old(SeatOf(ws)).since;
    }
  }
}
