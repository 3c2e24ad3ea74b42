/** The table of parked streams by ticket, and what each operation makes of it. */
module Tickets {
  import opened Wrappers
  import HelloProtocol

  // Time is in nanoseconds on the monotonic clock.
  const TICKET_TTL: nat := 60_000_000_000

  /** A parked stream: all that matters of one is which it is. */
  type Stream = nat

  /** The content of an announcement. */
  datatype Params = Params(workspaceId: int, peerDeviceId: int, ticket: string)

  /** An announcement its app has not heard yet. */
  datatype Held = Held(app: string, params: Params)

  datatype Pending = Pending(stream: Stream, created: int, unannounced: Option<Held>)

  type Table = map<string, Pending>

  predicate Expired(p: Pending, now: int) {
    HelloProtocol.Elapsed(p.created, now) >= TICKET_TTL
  }

  function Unexpired(table: Table, now: int): Table {
    map ticket | ticket in table && !Expired(table[ticket], now) :: table[ticket]
  }

  function Parked(table: Table, now: int, ticket: string, stream: Stream): Table {
    Unexpired(table, now)[ticket := Pending(stream, now, None)]
  }

  /** The table with an announcement attached to its own stream, if that is still there. */
  function Holding(table: Table, app: string, params: Params): Table {
    if params.ticket in table
    then table[params.ticket := table[params.ticket].(unannounced := Some(Held(app, params)))]
    else table
  }

  predicate IsHeldFor(p: Pending, app: string) {
    p.unannounced.Some? && p.unannounced.value.app == app
  }

  /** The unexpired part of the table, with nothing held for `app`. */
  function Drained(table: Table, app: string, now: int): Table {
    HandedOver(Unexpired(table, now), app, Unexpired(table, now).Keys)
  }

  /** The same for the announcements held under `tickets`. */
  function HandedOver(table: Table, app: string, tickets: set<string>): Table {
    map ticket | ticket in table ::
      if ticket in tickets && IsHeldFor(table[ticket], app) then table[ticket].(unannounced := None) else table[ticket]
  }

  /** What draining for `app` yields. */
  function Due(table: Table, app: string, now: int): set<Params> {
    HeldIn(Unexpired(table, now), app, Unexpired(table, now).Keys)
  }

  function HeldIn(table: Table, app: string, tickets: set<string>): set<Params> {
    set ticket | ticket in tickets && ticket in table && IsHeldFor(table[ticket], app) ::
      table[ticket].unannounced.value.params
  }

  function Claimed(table: Table, ticket: string, now: int): Table {
    Unexpired(table, now) - {ticket}
  }

  function StreamOf(table: Table, ticket: string, now: int): Option<Stream> {
    if ticket in table && !Expired(table[ticket], now) then Some(table[ticket].stream) else None
  }

  /** Every held announcement is filed under its own ticket. */
  ghost predicate Filed(table: Table) {
    forall ticket | ticket in table && table[ticket].unannounced.Some? ::
      table[ticket].unannounced.value.params.ticket == ticket
  }

  lemma NoneHeld(table: Table, app: string)
    ensures HeldIn(table, app, {}) == {} && HandedOver(table, app, {}) == table
  {
  }

  lemma OneMoreHandedOver(table: Table, app: string, done: set<string>, ticket: string)
    requires ticket in table && ticket !in done
    ensures ticket in HandedOver(table, app, done) && HandedOver(table, app, done)[ticket] == table[ticket]
    ensures HandedOver(table, app, done + {ticket}) ==
            if IsHeldFor(table[ticket], app)
            then HandedOver(table, app, done)[ticket := table[ticket].(unannounced := None)]
            else HandedOver(table, app, done)
  {
  }

  lemma AllHandedOver(table: Table, app: string)
    requires Filed(table)
    ensures Filed(HandedOver(table, app, table.Keys))
  {
  }

  lemma OneMoreHeld(table: Table, app: string, done: set<string>, ticket: string)
    requires Filed(table) && ticket in table && ticket !in done
    ensures multiset(HeldIn(table, app, done + {ticket})) ==
            if IsHeldFor(table[ticket], app)
            then multiset(HeldIn(table, app, done)) + multiset{table[ticket].unannounced.value.params}
            else multiset(HeldIn(table, app, done))
  {
    var more := HeldIn(table, app, done + {ticket});
    if IsHeldFor(table[ticket], app) {
      var params := table[ticket].unannounced.value.params;
      assert params !in HeldIn(table, app, done);
      assert more == HeldIn(table, app, done) + {params};
    } else {
      assert more == HeldIn(table, app, done);
    }
  }

  class Tickets {
    var pending: Table

    ghost predicate Valid()
      reads this
    {
      Filed(pending)
    }

    constructor ()
      ensures Valid() && pending == map[]
    {
      pending := map[];
    }

    /** Park a stream under a ticket drawn at random. */
    method Park(stream: Stream, ticket: string, now: int)
      requires Valid()
      modifies this
      ensures Valid() && pending == Parked(old(pending), now, ticket, stream)
    {
      Retain(now);
      pending := pending[ticket := Pending(stream, now, None)];
    }

    method Retain(now: int)
      modifies this
      ensures pending == Unexpired(old(pending), now)
      ensures old(Filed(pending)) ==> Filed(pending)
    {
      pending := map ticket | ticket in pending && !Expired(pending[ticket], now) :: pending[ticket];
    }

    method Hold(app: string, params: Params)
      requires Valid()
      modifies this
      ensures Valid() && pending == Holding(old(pending), app, params)
    {
      if params.ticket in pending {
        var parked := pending[params.ticket];
        pending := pending[params.ticket := parked.(unannounced := Some(Held(app, params)))];
      }
    }

    /** Hand out what is held for `app`, each announcement once, in no particular order. */
    method Unannounced(app: string, now: int) returns (r: seq<Params>)
      requires Valid()
      modifies this
      ensures Valid() && pending == Drained(old(pending), app, now)
      ensures multiset(r) == multiset(Due(old(pending), app, now))
    {
      hide HeldIn, HandedOver, Expired, Filed;
      Retain(now);
      r := [];
      AllHandedOver(pending, app);
      NoneHeld(pending, app);
      ghost var live := pending;
      ghost var done: set<string> := {};
      var left := pending.Keys;
      while left != {}
        invariant left + done == live.Keys && left !! done
        invariant pending == HandedOver(live, app, done)
        invariant multiset(r) == multiset(HeldIn(live, app, done))
        decreases left
      {
        ghost var some := Member(left);
        var ticket :| ticket in left;
        OneMoreHeld(live, app, done, ticket);
        OneMoreHandedOver(live, app, done, ticket);
        var p := pending[ticket];
        if IsHeldFor(p, app) {
          r := r + [p.unannounced.value.params];
          pending := pending[ticket := p.(unannounced := None)];
        }
        left, done := left - {ticket}, done + {ticket};
      }
      assert done == live.Keys;
    }

    /** The stream leaves the table for good. */
    method Claim(ticket: string, now: int) returns (stream: Option<Stream>)
      requires Valid()
      modifies this
      ensures Valid() && pending == Claimed(old(pending), ticket, now)
      ensures stream == StreamOf(old(pending), ticket, now)
    {
      Retain(now);
      stream := if ticket in pending then Some(pending[ticket].stream) else None;
      pending := pending - {ticket};
    }
  }
}
