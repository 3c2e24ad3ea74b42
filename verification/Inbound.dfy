/** What becomes of a peer's stream: refused, served here, or parked for the app server it is for. */
module Inbound {
  import opened Wrappers
  import opened Election
  import opened HelloProtocol
  import opened Tickets
  import opened Owners
  import opened Streams
  import opened Routes

  /** Routes under this name belong to the bridge. */
  const WORKSPACE_APP := "bridge"

  /** The first ledger record under a node id decides: its device, unless it is retired. */
  function Authorized(ledger: seq<Device>, from: string): (r: Option<GrainId>)
    ensures r.Some? ==> exists d :: d in ledger && d.id == r.value && d.nodeId == Some(from) && !d.retired
    ensures (forall d | d in ledger && d.nodeId == Some(from) :: d.retired) ==> r.None?
  {
    if ledger == [] then None
    else if ledger[0].nodeId == Some(from) then if ledger[0].retired then None else Some(ledger[0].id)
    else
      assert ledger == [ledger[0]] + ledger[1..];
      Authorized(ledger[1..], from)
  }

  datatype Verdict = HangUp | ServeHere | Take(device: GrainId, route: Route)

  /** Authorization comes first: what else this host knows has no part in the answer to a stranger. */
  function Decide(workgroup: Option<seq<Device>>, routes: seq<Route>, from: string, id: GrainId): Verdict {
    if workgroup.None? then HangUp
    else
      match Authorized(workgroup.value, from)
      case None => HangUp
      case Some(device) =>
        match Get(routes, id)
        case None => HangUp
        case Some(route) => if route.app == WORKSPACE_APP then ServeHere else Take(device, route)
  }

  /** Answer one workspace stream, as far as it is decided here; `started` says whether its app was started. */
  method Answer(bridge: Bridge, wakes: Wakes, workgroup: Option<seq<Device>>, routes: seq<Route>, wakeOnSync: bool,
                from: string, id: GrainId, stream: Stream, ticket: string, now: int)
    returns (verdict: Verdict, told: set<Notice>, started: bool)
    requires bridge.Valid()
    modifies bridge.tickets, wakes
    ensures bridge.Valid()
    ensures verdict == Decide(workgroup, routes, from, id)
    ensures !verdict.Take? ==>
              told == {} && !started && bridge.tickets.pending == old(bridge.tickets.pending)
                  && wakes.last == old(wakes.last)
    ensures verdict.Take? ==>
              var e := Arrive(now, stream, verdict.route.app, Params(id, verdict.device, ticket));
              var s := State(old(bridge.tickets.pending), bridge.owners.byApp, map[]);
              && bridge.tickets.pending == Step(s, e).pending && told == Told(s, e)
              && var wake := verdict.route.app !in bridge.owners.byApp && wakeOnSync
                             && verdict.route.managedBy == Spawned;
                 && started == (wake && MayWake(old(wakes.last), verdict.route.app, now))
                 && wakes.last == if wake then Woken(old(wakes.last), verdict.route.app, now) else old(wakes.last)
  {
    told, started := {}, false;
    if workgroup.None? {
      return HangUp, told, started;
    }
    var device := Authorized(workgroup.value, from);
    if device.None? {
      return HangUp, told, started;
    }
    var route := Get(routes, id);
    if route.None? {
      return HangUp, told, started;
    }
    if route.value.app == WORKSPACE_APP {
      return ServeHere, told, started;
    }
    verdict := Take(device.value, route.value);
    var app := route.value.app;
    ghost var s := State(bridge.tickets.pending, bridge.owners.byApp, map[]);
    told := bridge.Arrived(now, stream, app, Params(id, device.value, ticket));
    assert bridge.tickets.pending == Step(s, Arrive(now, stream, app, Params(id, device.value, ticket))).pending;
    if app !in bridge.owners.byApp && wakeOnSync && route.value.managedBy == Spawned {
      started := wakes.Claim(app, now);
    }
  }

  /** The `i`-th record is the ledger's first under this node id. */
  ghost predicate Sender(ledger: seq<Device>, from: string, i: nat) {
    i < |ledger| && ledger[i].nodeId == Some(from) && forall j | 0 <= j < i :: ledger[j].nodeId != Some(from)
  }

  /** The `k`-th row is the first for this workspace. */
  ghost predicate RowFor(routes: seq<Route>, id: GrainId, k: nat) {
    k < |routes| && routes[k].workspaceId == id && forall j | 0 <= j < k :: routes[j].workspaceId != id
  }

  lemma {:induction false} AuthorizedIs(ledger: seq<Device>, from: string, device: GrainId)
    ensures Authorized(ledger, from) == Some(device) <==>
            exists i: nat :: Sender(ledger, from, i) && !ledger[i].retired && ledger[i].id == device
    decreases |ledger|
  {
    if ledger != [] {
      var rest := ledger[1..];
      AuthorizedIs(rest, from, device);
      if i: nat :| Sender(ledger, from, i) && !ledger[i].retired && ledger[i].id == device {
        assert i > 0 ==> Sender(rest, from, i - 1) && rest[i - 1] == ledger[i];
      }
      if ledger[0].nodeId == Some(from) {
        assert Sender(ledger, from, 0);
      } else if i: nat :| Sender(rest, from, i) && !rest[i].retired && rest[i].id == device {
        assert Sender(ledger, from, i + 1) && ledger[i + 1] == rest[i];
      }
    }
  }

  lemma {:induction false} GetIs(routes: seq<Route>, id: GrainId, route: Route)
    ensures Get(routes, id) == Some(route) <==> exists k: nat :: RowFor(routes, id, k) && routes[k] == route
    decreases |routes|
  {
    if routes != [] {
      var rest := routes[1..];
      GetIs(rest, id, route);
      if k: nat :| RowFor(routes, id, k) && routes[k] == route {
        assert k > 0 ==> RowFor(rest, id, k - 1) && rest[k - 1] == route;
      }
      if routes[0].workspaceId == id {
        assert RowFor(routes, id, 0);
      } else if k: nat :| RowFor(rest, id, k) && rest[k] == route {
        assert RowFor(routes, id, k + 1) && routes[k + 1] == route;
      }
    }
  }

  /** The ledger's first record under this node id is active. */
  ghost predicate Known(ledger: seq<Device>, from: string) {
    exists i: nat :: Sender(ledger, from, i) && !ledger[i].retired
  }

  /** The workspace is one the bridge serves itself. */
  ghost predicate Own(routes: seq<Route>, id: GrainId) {
    exists k: nat :: RowFor(routes, id, k) && routes[k].app == "bridge"
  }

  lemma KnownIs(ledger: seq<Device>, from: string)
    ensures Authorized(ledger, from).Some? <==> Known(ledger, from)
  {
    if i: nat :| Sender(ledger, from, i) && !ledger[i].retired {
      AuthorizedIs(ledger, from, ledger[i].id);
    }
    if Authorized(ledger, from).Some? {
      AuthorizedIs(ledger, from, Authorized(ledger, from).value);
    }
  }

  lemma OwnIs(routes: seq<Route>, id: GrainId)
    ensures Get(routes, id).Some? && Get(routes, id).value.app == "bridge" <==> Own(routes, id)
  {
    if k: nat :| RowFor(routes, id, k) && routes[k].app == "bridge" {
      GetIs(routes, id, routes[k]);
    }
    if Get(routes, id).Some? {
      GetIs(routes, id, Get(routes, id).value);
    }
  }

  /**
   * A stream is taken for a device and a route exactly when that device is the ledger's first
   * under the sender's node id and active, and that route is the first for the workspace and an
   * app's other than the bridge's own, for which it is served here instead.
   */
  lemma ParkedForItsOwner(workgroup: Option<seq<Device>>, routes: seq<Route>, from: string, id: GrainId,
                          device: GrainId, route: Route)
    ensures Decide(workgroup, routes, from, id) == Take(device, route) <==>
            && workgroup.Some? && route.app != "bridge"
            && (exists i: nat ::
              Sender(workgroup.value, from, i) && !workgroup.value[i].retired && workgroup.value[i].id == device)
            && (exists k: nat :: RowFor(routes, id, k) && routes[k] == route)
    ensures Decide(workgroup, routes, from, id) == ServeHere <==>
            workgroup.Some? && Known(workgroup.value, from) && Own(routes, id)
  {
    hide Authorized, Get, Known, Own;
    if workgroup.Some? {
      AuthorizedIs(workgroup.value, from, device);
      GetIs(routes, id, route);
      KnownIs(workgroup.value, from);
      OwnIs(routes, id);
    }
  }
}
