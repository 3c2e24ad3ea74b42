/**
 * A bridge's inbound streams and the app servers they are for: every run of streams arriving,
 * servers registering, streams being claimed and connections closing.
 */
module Streams {
  import opened Wrappers
  import opened Tickets
  import opened Owners
  import HelloProtocol

  /**
   * `Arrive` is an authorized peer's stream for a workspace of `app`; parking it, looking for
   * its owner and holding the announcement are one step. So are connecting an app and draining
   * what is held for it, in `Register`.
   */
  datatype Event =
    | Arrive(now: int, stream: Stream, app: string, params: Params)
    | Register(now: int, app: string, conn: Handle)
    | Claim(now: int, ticket: string)
    | Close(conn: Handle)

  datatype State = State(pending: Table, owners: map<string, Handle>, sessions: map<Handle, seq<string>>)

  const INITIAL := State(map[], map[], map[])

  function SessionOf(s: State, conn: Handle): seq<string> {
    if conn in s.sessions then s.sessions[conn] else []
  }

  function Step(s: State, e: Event): State {
    match e
    case Arrive(now, stream, app, params) =>
      var parked := Parked(s.pending, now, params.ticket, stream);
      s.(pending := if app in s.owners then parked else Holding(parked, app, params))
    case Register(now, app, conn) =>
      State(Drained(s.pending, app, now), s.owners[app := conn], s.sessions[conn := Recorded(SessionOf(s, conn), app)])
    case Claim(now, ticket) =>
      s.(pending := Claimed(s.pending, ticket, now))
    case Close(conn) =>
      s.(owners := s.owners - AsSet(SessionOf(s, conn)), sessions := s.sessions[conn := []])
  }

  /** One announcement, and the connection it is made on. */
  datatype Notice = Notice(to: Handle, params: Params)

  /** What a step announces. */
  function Told(s: State, e: Event): set<Notice> {
    match e
    case Arrive(now, stream, app, params) => if app in s.owners then {Notice(s.owners[app], params)} else {}
    case Register(now, app, conn) => set params | params in Due(s.pending, app, now) :: Notice(conn, params)
    case _ => {}
  }

  /** What a step hands out. */
  function Handed(s: State, e: Event): Option<Stream> {
    if e.Claim? then StreamOf(s.pending, e.ticket, e.now) else None
  }

  function After(events: seq<Event>): State {
    if events == [] then INITIAL else Step(After(events[..|events| - 1]), events[|events| - 1])
  }

  /** The tickets announced, and those whose streams were handed out, in a run. */
  function Announced(events: seq<Event>): set<string> {
    if events == [] then {}
    else Announced(events[..|events| - 1]) + TicketsOf(Told(After(events[..|events| - 1]), events[|events| - 1]))
  }

  function HandedOut(events: seq<Event>): set<string> {
    if events == [] then {}
    else
      var e := events[|events| - 1];
      HandedOut(events[..|events| - 1]) + if Handed(After(events[..|events| - 1]), e).Some? then {e.ticket} else {}
  }

  // ----- the bridge's own objects do these steps -----

  class Bridge {
    const tickets: Tickets
    const owners: Owners

    ghost predicate Valid()
      reads this, tickets
    {
      tickets.Valid()
    }

    constructor ()
      ensures Valid() && fresh(tickets) && fresh(owners)
      ensures tickets.pending == INITIAL.pending && owners.byApp == INITIAL.owners
    {
      tickets := new Tickets();
      owners := new Owners();
    }

    /** The last steps of the inbound loop: park, then announce or hold. */
    method Arrived(now: int, stream: Stream, app: string, params: Params) returns (told: set<Notice>)
      requires Valid()
      modifies tickets
      ensures Valid()
      ensures forall sessions ::
        var s, e := State(old(tickets.pending), owners.byApp, sessions), Arrive(now, stream, app, params);
              tickets.pending == Step(s, e).pending && told == Told(s, e)
    {
      tickets.Park(stream, params.ticket, now);
      if app in owners.byApp {
        told := {Notice(owners.byApp[app], params)};
      } else {
        tickets.Hold(app, params);
        told := {};
      }
    }

    /** The end of a registration: connect, record, announce what was held. */
    method Registered(now: int, app: string, conn: Handle, session: Session) returns (told: seq<Notice>)
      requires Valid()
      modifies tickets, owners, session
      ensures Valid()
      ensures tickets.pending == Drained(old(tickets.pending), app, now)
      ensures owners.byApp == old(owners.byApp)[app := conn]
      ensures session.apps == Recorded(old(session.apps), app)
      ensures forall sessions :: var s := State(old(tickets.pending), old(owners.byApp), sessions);
              forall n :: n in told <==> n in Told(s, Register(now, app, conn))
    {
      owners.Connect(app, conn);
      session.Record(app);
      var held := tickets.Unannounced(app, now);
      told := [];
      for i := 0 to |held|
        invariant forall n :: n in told <==> n.to == conn && n.params in held[..i]
      {
        told := told + [Notice(conn, held[i])];
      }
      assert held[..|held|] == held;
      assert forall p :: p in held <==> p in multiset(held);
    }
  }

  // ----- what every run keeps -----

  /** Tickets are drawn fresh. */
  ghost predicate Legal(events: seq<Event>) {
    forall i, j | 0 <= i < j < |events| && events[i].Arrive? && events[j].Arrive? ::
      events[i].params.ticket != events[j].params.ticket
  }

  /** The arrival that parked a stream under `ticket`. */
  ghost predicate ArrivedAs(events: seq<Event>, e: Event, ticket: string) {
    e in events && e.Arrive? && e.params.ticket == ticket
  }

  ghost predicate Arrived(events: seq<Event>, ticket: string) {
    exists e :: ArrivedAs(events, e, ticket)
  }

  /** The stream parked as `p` is the one `e` brought, and is announced, or held for its own, absent app. */
  ghost predicate AccountedBy(s: State, p: Pending, announced: set<string>, e: Event)
    requires e.Arrive?
  {
    && p.stream == e.stream && p.created == e.now
    && if p.unannounced.None? then e.params.ticket in announced
       else p.unannounced.value == Held(e.app, e.params) && e.params.ticket !in announced && e.app !in s.owners
  }

  ghost predicate Accounted(events: seq<Event>, s: State, ticket: string)
    requires ticket in s.pending
  {
    exists e :: ArrivedAs(events, e, ticket) && AccountedBy(s, s.pending[ticket], Announced(events), e)
  }

  ghost predicate SoundTickets(events: seq<Event>) {
    var s := After(events);
    && (forall ticket | ticket in s.pending :: Accounted(events, s, ticket) && ticket !in HandedOut(events))
    && (forall ticket | ticket in Announced(events) + HandedOut(events) :: Arrived(events, ticket))
  }

  lemma OneMore(front: seq<Event>, e: Event)
    ensures var events := front + [e];
            && After(events) == Step(After(front), e)
            && Announced(events) == Announced(front) + TicketsOf(Told(After(front), e))
            && HandedOut(events) == HandedOut(front) + (if Handed(After(front), e).Some? then {e.ticket} else {})
            && (forall ticket | Arrived(front, ticket) :: Arrived(events, ticket))
  {
    hide Step, Told, Handed;
    var events := front + [e];
    assert events[..|events| - 1] == front && events[|events| - 1] == e;
    forall ticket | Arrived(front, ticket) ensures Arrived(events, ticket) {
      var a :| ArrivedAs(front, a, ticket);
      assert ArrivedAs(events, a, ticket);
    }
  }

  lemma LegalFront(front: seq<Event>, e: Event)
    requires Legal(front + [e])
    ensures Legal(front)
    ensures e.Arrive? ==> !Arrived(front, e.params.ticket)
  {
    var events := front + [e];
    assert forall i | 0 <= i < |front| :: events[i] == front[i];
    assert events[|front|] == e;
  }

  /** A ticket that stays parked stays accounted for. */
  lemma StillAccounted(front: seq<Event>, e: Event, ticket: string)
    requires Legal(front + [e]) && SoundTickets(front)
    requires ticket in After(front).pending && ticket in Step(After(front), e).pending
    ensures Accounted(front + [e], Step(After(front), e), ticket) && ticket !in HandedOut(front + [e])
  {
    hide After, Announced, HandedOut, Legal;
    var s := After(front);
    OneMore(front, e);
    LegalFront(front, e);
    assert Accounted(front, s, ticket);
    var a :| ArrivedAs(front, a, ticket) && AccountedBy(s, s.pending[ticket], Announced(front), a);
    assert ArrivedAs(front + [e], a, ticket);
    assert Arrived(front, ticket);
    if e.Register? {
      DueTicket(front, e.app, e.now, ticket);
    }
    assert AccountedBy(Step(s, e), Step(s, e).pending[ticket], Announced(front + [e]), a);
  }

  /** Among what a registration announces is what is held under `ticket`, if it is held for that app. */
  lemma DueTicket(events: seq<Event>, app: string, now: int, ticket: string)
    requires SoundTickets(events)
    requires ticket in After(events).pending && !Expired(After(events).pending[ticket], now)
    ensures forall conn ::
      ticket in TicketsOf(Told(After(events), Register(now, app, conn))) <==>
          IsHeldFor(After(events).pending[ticket], app)
  {
    hide After, Announced, HandedOut;
    var s := After(events);
    forall conn ensures ticket in TicketsOf(Told(s, Register(now, app, conn))) <==> IsHeldFor(s.pending[ticket], app) {
      var told := Told(s, Register(now, app, conn));
      if ticket in TicketsOf(told) {
        var n :| n in told && n.params.ticket == ticket;
        var t :| t in s.pending && IsHeldFor(s.pending[t], app) && s.pending[t].unannounced.value.params == n.params;
        assert Accounted(events, s, t);
      }
      if IsHeldFor(s.pending[ticket], app) {
        assert Accounted(events, s, ticket);
        var params := s.pending[ticket].unannounced.value.params;
        assert ticket in Unexpired(s.pending, now);
        assert params in Due(s.pending, app, now);
        assert Notice(conn, params) in told;
      }
    }
  }

  function TicketsOf(notices: set<Notice>): set<string> {
    set n | n in notices :: n.params.ticket
  }

  lemma ArrivalIsAccounted(front: seq<Event>, e: Event)
    requires Legal(front + [e]) && SoundTickets(front) && e.Arrive?
    ensures var ticket := e.params.ticket;
            && ticket !in After(front).pending && ticket in Step(After(front), e).pending
            && Accounted(front + [e], Step(After(front), e), ticket) && ticket !in HandedOut(front + [e])
  {
    hide After, Announced, HandedOut, Legal;
    var s := After(front);
    var ticket := e.params.ticket;
    OneMore(front, e);
    LegalFront(front, e);
    assert ticket in s.pending ==> Accounted(front, s, ticket);
    assert ticket !in Announced(front) + HandedOut(front);
    assert ArrivedAs(front + [e], e, ticket);
    assert AccountedBy(Step(s, e), Step(s, e).pending[ticket], Announced(front + [e]), e);
  }

  lemma ToldArrived(front: seq<Event>, e: Event, ticket: string)
    requires SoundTickets(front)
    requires ticket in TicketsOf(Told(After(front), e))
    ensures Arrived(front + [e], ticket)
  {
    hide After, Announced, HandedOut;
    var s := After(front);
    var n :| n in Told(s, e) && n.params.ticket == ticket;
    if e.Arrive? {
      assert ArrivedAs(front + [e], e, ticket);
    } else {
      var t :| t in s.pending && IsHeldFor(s.pending[t], e.app) && s.pending[t].unannounced.value.params == n.params;
      assert Accounted(front, s, t);
      OneMore(front, e);
      assert Arrived(front, ticket);
    }
  }

  lemma TicketsStaySound(front: seq<Event>, e: Event)
    requires Legal(front + [e]) && SoundTickets(front)
    ensures SoundTickets(front + [e])
  {
    hide After, Announced, HandedOut, Legal, Accounted, Told, Arrived;
    var s, events := After(front), front + [e];
    OneMore(front, e);
    forall ticket | ticket in Step(s, e).pending
      ensures Accounted(events, Step(s, e), ticket) && ticket !in HandedOut(events)
    {
      if ticket in s.pending {
        StillAccounted(front, e, ticket);
      } else {
        ArrivalIsAccounted(front, e);
      }
    }
    forall ticket | ticket in Announced(events) + HandedOut(events) ensures Arrived(events, ticket) {
      if ticket in TicketsOf(Told(s, e)) {
        ToldArrived(front, e, ticket);
      } else if ticket !in Announced(front) + HandedOut(front) {
        assert Accounted(front, s, ticket);
        ParkedArrived(front, ticket);
      }
    }
  }

  lemma ParkedArrived(events: seq<Event>, ticket: string)
    requires ticket in After(events).pending && Accounted(events, After(events), ticket)
    ensures Arrived(events, ticket)
  {
  }

  lemma {:induction false} RunsAreSound(events: seq<Event>)
    requires Legal(events)
    ensures SoundTickets(events)
  {
    if events != [] {
      var front, e := events[..|events| - 1], events[|events| - 1];
      assert events == front + [e];
      LegalFront(front, e);
      RunsAreSound(front);
      TicketsStaySound(front, e);
    }
  }

  // ----- tickets -----

  function TimeOf(e: Event): Option<int> {
    if e.Close? then None else Some(e.now)
  }

  /** The clock never reads earlier than it did, up to `now`. */
  ghost predicate ClockForward(events: seq<Event>, now: int) {
    && (forall e | e in events && TimeOf(e).Some? :: TimeOf(e).value <= now)
    && (forall i, j | 0 <= i < j < |events| && TimeOf(events[i]).Some? && TimeOf(events[j]).Some? ::
      TimeOf(events[i]).value <= TimeOf(events[j]).value)
  }

  lemma ForwardFront(front: seq<Event>, e: Event, now: int)
    requires ClockForward(front + [e], now)
    ensures ClockForward(front, if TimeOf(e).Some? then TimeOf(e).value else now)
    ensures TimeOf(e).Some? ==> TimeOf(e).value <= now
  {
    var events := front + [e];
    assert events[|front|] == e;
    assert forall i | 0 <= i < |front| :: events[i] == front[i];
    assert forall a | a in front :: a in events;
  }

  /** A stream stays parked until it is handed out or its minute is over. */
  lemma {:induction false} StaysParked(events: seq<Event>, a: Event, now: int)
    requires Legal(events) && ClockForward(events, now)
    requires a in events && a.Arrive? && now - a.now < TICKET_TTL && a.params.ticket !in HandedOut(events)
    ensures a.params.ticket in After(events).pending
  {
    hide Legal, ClockForward, Announced, Accounted, After, HandedOut;
    var front, e := events[..|events| - 1], events[|events| - 1];
    assert events == front + [e];
    LegalFront(front, e);
    ForwardFront(front, e, now);
    OneMore(front, e);
    RunsAreSound(front);
    var s := After(front);
    var ticket := a.params.ticket;
    if a in front {
      StaysParked(front, a, if TimeOf(e).Some? then TimeOf(e).value else now);
      assert Accounted(front, s, ticket);
      ParkedAs(front, a);
      assert e.Arrive? ==> ArrivedAs(front, a, ticket) && Arrived(front, ticket);
    }
  }

  /** Tickets being fresh, only one arrival has each. */
  lemma OneArrivalEach(events: seq<Event>, a: Event, b: Event, ticket: string)
    requires Legal(events) && ArrivedAs(events, a, ticket) && ArrivedAs(events, b, ticket)
    ensures a == b
  {
    var i :| 0 <= i < |events| && events[i] == a;
    var j :| 0 <= j < |events| && events[j] == b;
    assert i == j;
  }

  lemma ParkedAs(events: seq<Event>, a: Event)
    requires Legal(events) && a in events && a.Arrive? && a.params.ticket in After(events).pending
    ensures AccountedBy(After(events), After(events).pending[a.params.ticket], Announced(events), a)
  {
    hide Legal, After, Announced;
    RunsAreSound(events);
    var s, ticket := After(events), a.params.ticket;
    assert Accounted(events, s, ticket);
    var b :| ArrivedAs(events, b, ticket) && AccountedBy(s, s.pending[ticket], Announced(events), b);
    OneArrivalEach(events, a, b, ticket);
  }

  /** Presenting a ticket gets the stream that arrived under it: once, and within its minute, and always then. */
  lemma ATicketWorksOnceAndInTime(events: seq<Event>, ticket: string, now: int, stream: Stream)
    requires Legal(events) && ClockForward(events, now)
    ensures Handed(After(events), Claim(now, ticket)) == Some(stream) <==>
            && ticket !in HandedOut(events)
            && exists a :: ArrivedAs(events, a, ticket) && a.stream == stream && now - a.now < TICKET_TTL
  {
    hide Legal, ClockForward, After, Announced, HandedOut;
    RunsAreSound(events);
    var s := After(events);
    if ticket in s.pending {
      assert Accounted(events, s, ticket);
      var a :| ArrivedAs(events, a, ticket) && AccountedBy(s, s.pending[ticket], Announced(events), a);
      forall b | ArrivedAs(events, b, ticket) ensures a == b {
        OneArrivalEach(events, a, b, ticket);
      }
      assert a.now <= now by {
        hide *;
        InThePast(events, a, now);
      }
    } else {
      forall a | ArrivedAs(events, a, ticket) && now - a.now < TICKET_TTL && ticket !in HandedOut(events)
        ensures false
      {
        StaysParked(events, a, now);
      }
    }
  }

  lemma InThePast(events: seq<Event>, a: Event, now: int)
    requires ClockForward(events, now) && a in events && a.Arrive?
    ensures a.now <= now
  {
    assert TimeOf(a) == Some(a.now);
  }

  // ----- announcements -----

  /**
   * A stream is announced at most once: to the app it is for, on the connection that app
   * registered, and while it is parked, in its minute.
   */
  lemma AnnouncedOnceToItsApp(events: seq<Event>, e: Event, n: Notice)
    requires Legal(events + [e]) && n in Told(After(events), e)
    ensures n.params.ticket !in Announced(events)
    ensures exists a :: a in events + [e] && a.Arrive? && a.params == n.params
                        && a.app in After(events + [e]).owners && After(events + [e]).owners[a.app] == n.to
                        && HelloProtocol.Elapsed(a.now, e.now) < TICKET_TTL
    ensures n.params.ticket in After(events + [e]).pending
  {
    hide Legal, After, Announced, HandedOut;
    LegalFront(events, e);
    RunsAreSound(events);
    OneMore(events, e);
    var s := After(events);
    if e.Arrive? {
      assert e in events + [e];
      assert n.params.ticket in Announced(events) ==> Arrived(events, n.params.ticket);
    } else {
      var t :| t in s.pending && !Expired(s.pending[t], e.now) && IsHeldFor(s.pending[t], e.app)
          && s.pending[t].unannounced.value.params == n.params;
      assert Accounted(events, s, t);
      var a :| ArrivedAs(events, a, t) && AccountedBy(s, s.pending[t], Announced(events), a);
      assert a in events + [e];
    }
  }

  /** No announcement waits for an app that is online: each of its parked streams has been announced. */
  lemma OnlineAppsHaveHeardOfEveryStream(events: seq<Event>, a: Event)
    requires Legal(events) && a in events && a.Arrive?
    requires a.params.ticket in After(events).pending && a.app in After(events).owners
    ensures After(events).pending[a.params.ticket].unannounced.None?
    ensures a.params.ticket in Announced(events)
  {
    ParkedAs(events, a);
  }

  // ----- connections -----

  /** The `i`-th event registers the app on a connection that does not close after it. */
  ghost predicate RegisteredAt(events: seq<Event>, app: string, conn: Handle, i: nat) {
    && i < |events| && events[i].Register? && events[i].app == app && events[i].conn == conn
    && Close(conn) !in events[i + 1..]
  }

  /** A connection stands for an app it registered and has not closed since. */
  ghost predicate Standing(events: seq<Event>, app: string, conn: Handle) {
    exists i :: RegisteredAt(events, app, conn, i)
  }

  lemma StandingMore(front: seq<Event>, e: Event, app: string, conn: Handle)
    ensures Standing(front + [e], app, conn) <==>
            (e.Register? && e.app == app && e.conn == conn) || (Standing(front, app, conn) && e != Close(conn))
  {
    var events := front + [e];
    assert events[|front|] == e && events[|front| + 1..] == [];
    assert forall i: nat | i < |front| :: events[i] == front[i] && events[i + 1..] == front[i + 1..] + [e];
    if e.Register? && e.app == app && e.conn == conn {
      assert RegisteredAt(events, app, conn, |front|);
    }
    if Standing(front, app, conn) && e != Close(conn) {
      var i: nat :| RegisteredAt(front, app, conn, i);
      assert RegisteredAt(events, app, conn, i);
    }
    if Standing(events, app, conn) {
      var i: nat :| RegisteredAt(events, app, conn, i);
      assert i < |front| ==> RegisteredAt(front, app, conn, i);
    }
  }

  /** A connection's list holds exactly the apps it stands for. */
  lemma {:induction false} SessionsStand(events: seq<Event>, app: string, conn: Handle)
    ensures app in SessionOf(After(events), conn) <==> Standing(events, app, conn)
  {
    hide Standing, Drained, Parked, Holding, Claimed;
    if events == [] {
      assert !Standing(events, app, conn) by { NobodyStands(app, conn); }
    } else {
      var front, e := events[..|events| - 1], events[|events| - 1];
      assert events == front + [e];
      SessionsStand(front, app, conn);
      StandingMore(front, e, app, conn);
    }
  }

  ghost predicate EachOnce(apps: seq<string>) {
    forall i, j | 0 <= i < j < |apps| :: apps[i] != apps[j]
  }

  /** However often it registers on a connection, an app is in its list once. */
  lemma {:induction false} SessionsListOnce(events: seq<Event>, conn: Handle)
    ensures EachOnce(SessionOf(After(events), conn))
  {
    hide Drained, Parked, Holding, Claimed;
    if events != [] {
      SessionsListOnce(events[..|events| - 1], conn);
    }
  }

  lemma NobodyStands(app: string, conn: Handle)
    ensures !Standing([], app, conn)
  {
  }

  /** An app is reached only on a connection that registered it and has not closed since. */
  lemma {:induction false} OwnersStand(events: seq<Event>, app: string)
    requires app in After(events).owners
    ensures Standing(events, app, After(events).owners[app])
  {
    hide Standing, Drained, Parked, Holding, Claimed;
    var front, e := events[..|events| - 1], events[|events| - 1];
    assert events == front + [e];
    var conn := After(events).owners[app];
    StandingMore(front, e, app, conn);
    if !(e.Register? && e.app == app) {
      OwnersStand(front, app);
      SessionsStand(front, app, conn);
    }
  }

  /** The connection registers the app after it has closed. */
  ghost predicate RegistersLate(events: seq<Event>, app: string, conn: Handle) {
    exists i, j :: 0 <= i < j < |events| && events[i] == Close(conn) && RegisteredAt(events, app, conn, j)
  }

  /**
   * The handle held for an app is that of a closed connection exactly when a registration on
   * that connection came after its close.
   */
  lemma ClosedHandleIffRegisteredLate(events: seq<Event>, app: string)
    requires app in After(events).owners
    ensures var conn := After(events).owners[app];
            Close(conn) in events <==> RegistersLate(events, app, conn)
  {
    var conn := After(events).owners[app];
    OwnersStand(events, app);
    var j: nat :| RegisteredAt(events, app, conn, j);
    if Close(conn) in events {
      assert events == events[..j] + [events[j]] + events[j + 1..];
      assert Close(conn) in events[..j];
      var i :| 0 <= i < j && events[..j][i] == Close(conn);
      assert events[i] == Close(conn);
    }
  }

  /** The handler of a registration may outlive its connection, and the app then stays online on a closed one. */
  lemma AClosedHandleIsKept(app: string)
    ensures var events := [Close(1), Register(0, app, 1)];
            && app in After(events).owners && After(events).owners[app] == 1
            && RegistersLate(events, app, 1)
  {
    hide Drained;
    var e0, e1 := Close(1), Register(0, app, 1);
    var events := [e0, e1];
    assert [] + [e0] == [e0] && [e0] + [e1] == events;
    OneMore([], e0);
    OneMore([e0], e1);
    assert events[2..] == [] && RegisteredAt(events, app, 1, 1) && events[0] == Close(1);
  }

  /** A closing connection takes an online app offline exactly when it registered the app and has not closed since. */
  lemma ClosingDropsWhatItRegistered(events: seq<Event>, conn: Handle, app: string)
    requires app in After(events).owners
    ensures app !in After(events + [Close(conn)]).owners <==> Standing(events, app, conn)
    ensures app in After(events + [Close(conn)]).owners ==>
              After(events + [Close(conn)]).owners[app] == After(events).owners[app]
  {
    hide After, Standing;
    OneMore(events, Close(conn));
    SessionsStand(events, app, conn);
  }

  /** So an app that registered again before its first connection closed goes offline with it. */
  lemma ASecondConnectionIsDropped(app: string)
    ensures var events := [Register(0, app, 1), Register(1, app, 2), Close(1)];
            app !in After(events).owners && Standing(events, app, 2)
  {
    hide After, Step, Announced, HandedOut, Standing;
    var e0, e1, e2 := Register(0, app, 1), Register(1, app, 2), Close(1);
    assert [] + [e0] == [e0] && [e0] + [e1] == [e0, e1] && [e0, e1] + [e2] == [e0, e1, e2];
    OneMore([], e0);
    OneMore([e0], e1);
    StandingMore([], e0, app, 1);
    StandingMore([e0], e1, app, 1);
    StandingMore([e0], e1, app, 2);
    StandingMore([e0, e1], e2, app, 2);
    assert app in After([e0, e1]).owners by {
      Connects(After([e0]), 1, app, 2);
    }
    ClosingDropsWhatItRegistered([e0, e1], 1, app);
  }

  lemma Connects(s: State, now: int, app: string, conn: Handle)
    ensures app in Step(s, Register(now, app, conn)).owners
  {
    hide Drained;
  }

  /** The `i`-th event registers the app, and no connection that closes later stands for it as it closes. */
  ghost predicate Lasting(events: seq<Event>, app: string, i: nat) {
    && i < |events| && events[i].Register? && events[i].app == app
    && forall j | i < j < |events| && events[j].Close? :: !Standing(events[..j], app, events[j].conn)
  }

  ghost predicate LastingSome(events: seq<Event>, app: string) {
    exists i :: Lasting(events, app, i)
  }

  lemma LastingMore(front: seq<Event>, e: Event, app: string)
    ensures LastingSome(front + [e], app) <==>
            || (e.Register? && e.app == app)
            || (LastingSome(front, app) && !(e.Close? && Standing(front, app, e.conn)))
  {
    hide Standing;
    var events, n := front + [e], |front|;
    assert events[n] == e && events[..n] == front;
    assert forall i: nat | i < n :: events[i] == front[i] && events[..i] == front[..i];
    if e.Register? && e.app == app {
      assert Lasting(events, app, n);
    }
    if LastingSome(front, app) && !(e.Close? && Standing(front, app, e.conn)) {
      var i: nat :| Lasting(front, app, i);
      assert Lasting(events, app, i);
    }
    if LastingSome(events, app) {
      var i: nat :| Lasting(events, app, i);
      assert i < n ==> Lasting(front, app, i) && !(e.Close? && Standing(front, app, e.conn));
    }
  }

  /**
   * An app is online exactly when some registration of it has not been followed by the close of a
   * connection that stood for it, its own or another. Nothing is assumed of the connections.
   */
  lemma {:induction false} OnlineIff(events: seq<Event>, app: string)
    ensures app in After(events).owners <==> LastingSome(events, app)
  {
    hide Standing, LastingSome, Drained, Parked, Holding, Claimed;
    if events == [] {
      assert !LastingSome(events, app) by {
        NothingLasts(app);
      }
    } else {
      var front, e := events[..|events| - 1], events[|events| - 1];
      assert events == front + [e];
      OnlineIff(front, app);
      LastingMore(front, e, app);
      if e.Close? {
        SessionsStand(front, app, e.conn);
      }
    }
  }

  lemma NothingLasts(app: string)
    ensures !LastingSome([], app)
  {
  }

  /** No app registers while another connection stands for it. */
  ghost predicate OneConnectionEach(events: seq<Event>) {
    forall i | 0 <= i < |events| && events[i].Register? ::
      forall conn | conn != events[i].conn :: !Standing(events[..i], events[i].app, conn)
  }

  ghost predicate SomeoneStands(events: seq<Event>, app: string) {
    exists conn :: Standing(events, app, conn)
  }

  /** Then an app is online exactly while some connection stands for it, and only one does. */
  lemma {:induction false} OnlineWhileRegistered(events: seq<Event>, app: string)
    requires OneConnectionEach(events)
    ensures app in After(events).owners <==> SomeoneStands(events, app)
    ensures forall conn, other :: Standing(events, app, conn) && Standing(events, app, other) ==> conn == other
  {
    hide Standing, Drained, Parked, Holding, Claimed;
    if events == [] {
      forall conn ensures !Standing(events, app, conn) {
        NobodyStands(app, conn);
      }
    } else {
      var n := |events| - 1;
      var front, e := events[..n], events[n];
      assert events == front + [e];
      assert forall i | 0 <= i < n :: front[i] == events[i] && front[..i] == events[..i];
      OnlineWhileRegistered(front, app);
      forall conn ensures Standing(events, app, conn) <==>
                          (e.Register? && e.app == app && e.conn == conn)
                              || (Standing(front, app, conn) && e != Close(conn)) {
        StandingMore(front, e, app, conn);
      }
      forall conn ensures app in SessionOf(After(front), conn) <==> Standing(front, app, conn) {
        SessionsStand(front, app, conn);
      }
      if e.Register? && e.app == app {
        assert Standing(events, app, e.conn);
        forall conn | conn != e.conn ensures !Standing(events, app, conn) {
          assert !Standing(events[..n], events[n].app, conn);
        }
      } else if SomeoneStands(front, app) {
        var conn :| Standing(front, app, conn);
        assert e != Close(conn) ==> Standing(events, app, conn);
      }
    }
  }
}
