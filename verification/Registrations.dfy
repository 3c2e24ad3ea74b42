/** One app server's whole registration: its routes, its workspaces' announcements, its connection. */
module Registrations {
  import opened Wrappers
  import opened Election
  import opened Owners
  import opened Streams
  import opened Routes

  /** The workgroup's list of workspaces: for each, its app and its name. */
  type Listing = map<GrainId, (string, string)>

  class WorkspaceList {
    var entries: Listing

    constructor ()
      ensures entries == map[]
    {
      entries := map[];
    }

    /** One entry of the list is set, unless the write fails. */
    method Publish(id: GrainId, app: string, name: string, written: bool)
      modifies this
      ensures entries == if written then old(entries)[id := (app, name)] else old(entries)
    {
      if written {
        entries := entries[id := (app, name)];
      }
    }
  }

  /** The workgroup, read again once the routes are replaced. */
  datatype Reread = Unreadable | Gone | There

  /**
   * What a registration meets: whether this host is in a workgroup, whether the routes can be
   * written, the workgroup read again, which publications are written, and each workspace's name.
   */
  datatype World = World(member: bool, written: bool, reread: Reread, published: nat -> bool,
      nameOf: Registration -> string)

  datatype Failure = NoWorkgroup | NotReplaced(error: Routes.Error) | NotReread | NotPublished(k: nat)

  /** How many workspaces of the list are published before one fails. */
  function Publications(w: World, n: nat): (k: nat)
    ensures k <= n
    ensures forall i | 0 <= i < k :: w.published(i)
    ensures k < n ==> !w.published(k)
  {
    if n == 0 then 0
    else
      var k := Publications(w, n - 1);
      if k == n - 1 && w.published(k) then n else k
  }

  function Listed(entries: Listing, w: World, app: string, workspaces: seq<Registration>): Listing {
    if workspaces == [] then entries
    else
      var last := workspaces[|workspaces| - 1];
      Listed(entries, w, app, workspaces[..|workspaces| - 1])[last.workspaceId := (app, w.nameOf(last))]
  }

  /** Whether a registration succeeds, or the first thing that fails. */
  function Outcome(routes: seq<Route>, op: Op, w: World): Result<(), Failure>
    requires op.ReplaceApp?
  {
    var n := |op.workspaces|;
    if !w.member then Err(NoWorkgroup)
    else if Applied(routes, op).Err? then Err(NotReplaced(Applied(routes, op).error))
    else if !w.written then Err(NotReplaced(NotWritten))
    else if w.reread.Unreadable? then Err(NotReread)
    else if w.reread.There? && Publications(w, n) < n then Err(NotPublished(Publications(w, n)))
    else Ok(())
  }

  /** The registration fails before it has replaced the app's routes. */
  predicate FailsEarly(r: Result<(), Failure>) {
    r.Err? && (r.error.NoWorkgroup? || r.error.NotReplaced?)
  }

  function RoutesAfter(routes: seq<Route>, op: Op, r: Result<(), Failure>): seq<Route> {
    if FailsEarly(r) || Applied(routes, op).Err? then routes else Applied(routes, op).value
  }

  /** The workspaces published, those before the first failure. */
  function PublishedOf(op: Op, w: World, r: Result<(), Failure>): seq<Registration>
    requires op.ReplaceApp?
  {
    if FailsEarly(r) || !w.reread.There? then [] else op.workspaces[..Publications(w, |op.workspaces|)]
  }

  /**
   * The checks, the routes, the publications, and only then the connection: whatever fails ends
   * it there, and undoes nothing.
   */
  method Register(table: RouteTable, list: WorkspaceList, bridge: Bridge, session: Session, op: Op, w: World,
                  conn: Handle, now: int)
    returns (r: Result<(), Failure>, told: seq<Notice>)
    requires op.ReplaceApp? && table.Valid() && bridge.Valid()
    modifies table, list, bridge.tickets, bridge.owners, session
    ensures table.Valid() && bridge.Valid()
    ensures r == Outcome(old(table.routes), op, w)
    ensures table.routes == RoutesAfter(old(table.routes), op, r)
    ensures table.file == if FailsEarly(r) then old(table.file) else Some(table.routes)
    ensures list.entries == Listed(old(list.entries), w, op.app, PublishedOf(op, w, r))
    ensures r.Err? ==>
              && told == [] && session.apps == old(session.apps)
              && bridge.owners.byApp == old(bridge.owners.byApp)
              && bridge.tickets.pending == old(bridge.tickets.pending)
    ensures r.Ok? ==>
              && session.apps == Recorded(old(session.apps), op.app)
              && forall sessions ::
                   var s, e := State(old(bridge.tickets.pending), old(bridge.owners.byApp),
                       sessions), Streams.Register(now, op.app, conn);
                   && bridge.tickets.pending == Step(s, e).pending && bridge.owners.byApp == Step(s, e).owners
                   && forall n :: n in told <==> n in Told(s, e)
  {
    hide Applied, Listed;
    told := [];
    NothingListed(list.entries, w, op.app);
    if !w.member {
      return Err(NoWorkgroup), told;
    }
    var replaced := table.ReplaceApp(op.app, op.exe, op.managedBy, op.workspaces, w.written);
    if replaced.Err? {
      return Err(NotReplaced(replaced.error)), told;
    }
    if w.reread.Unreadable? {
      return Err(NotReread), told;
    }
    if w.reread.There? {
      var k := PublishAll(list, op.app, op.workspaces, w);
      if k < |op.workspaces| {
        return Err(NotPublished(k)), told;
      }
    }
    told := bridge.Registered(now, op.app, conn, session);
    r := Ok(());
  }

  /** Publish the workspaces in order, up to the first that fails. */
  method PublishAll(list: WorkspaceList, app: string, workspaces: seq<Registration>, w: World) returns (k: nat)
    modifies list
    ensures k == Publications(w, |workspaces|)
    ensures list.entries == Listed(old(list.entries), w, app, workspaces[..k])
  {
    k := 0;
    while k < |workspaces|
      invariant k <= |workspaces| && k == Publications(w, k)
      invariant list.entries == Listed(old(list.entries), w, app, workspaces[..k])
    {
      var ws := workspaces[k];
      list.Publish(ws.workspaceId, app, w.nameOf(ws), w.published(k));
      if !w.published(k) {
        StopsAt(w, k, |workspaces|);
        return;
      }
      assert workspaces[..k + 1][..k] == workspaces[..k];
      k := k + 1;
    }
  }

  lemma {:induction false} StopsAt(w: World, k: nat, n: nat)
    requires k < n && k == Publications(w, k) && !w.published(k)
    ensures Publications(w, n) == k
    decreases n
  {
    if n > k + 1 {
      StopsAt(w, k, n - 1);
    }
  }

  lemma NothingListed(entries: Listing, w: World, app: string)
    ensures Listed(entries, w, app, []) == entries
  {
  }

  /**
   * The routes survive a failed registration unchanged exactly when the host is in no workgroup, a
   * workspace of the list is another app's, the routes cannot be written, or there is nothing to
   * replace: the app's rows are already those of the list.
   */
  lemma AFailedRegistrationKeepsTheRoutesIff(routes: seq<Route>, op: Op, w: World)
    requires op.ReplaceApp? && Ordered(routes) && Unique(routes) && DistinctIds(op.workspaces)
    requires Outcome(routes, op, w).Err?
    ensures RoutesAfter(routes, op, Outcome(routes, op, w)) == routes <==>
            !w.member || Refusal(routes, op.app, op.workspaces).Some? || !w.written || HasExactly(routes, op)
  {
    hide HasExactly, Sorted, Rows, Ordered, Unique;
    if Applied(routes, op).Ok? {
      NothingToReplaceIff(routes, op);
    }
  }

  /**
   * What it takes to register: a workgroup, a list with no other app's workspace, routes that can
   * be written, a workgroup that can be read again and, if it is still there, every publication.
   */
  lemma RegisteredIff(routes: seq<Route>, op: Op, w: World)
    requires op.ReplaceApp?
    ensures Outcome(routes, op, w).Ok? <==>
            && w.member && w.written && !w.reread.Unreadable?
            && (forall ws | ws in op.workspaces ::
                  Get(routes, ws.workspaceId).Some? ==> Get(routes, ws.workspaceId).value.app == op.app)
            && (w.reread.There? ==> forall k | 0 <= k < |op.workspaces| :: w.published(k))
  {
    hide Sorted, Rows;
    RefusedIff(routes, op.app, op.workspaces);
  }

  lemma {:induction false} ListedIs(entries: Listing, w: World, app: string, workspaces: seq<Registration>, id: GrainId)
    requires DistinctIds(workspaces)
    ensures var after := Listed(entries, w, app, workspaces);
            && (forall ws | ws in workspaces && ws.workspaceId == id ::
                  id in after && after[id] == (app, w.nameOf(ws)))
            && ((forall ws | ws in workspaces :: ws.workspaceId != id) ==>
                  (id in after <==> id in entries) && (id in entries ==> after[id] == entries[id]))
    decreases |workspaces|
  {
    if workspaces != [] {
      var n := |workspaces| - 1;
      var front, last := workspaces[..n], workspaces[n];
      assert workspaces == front + [last];
      forall ws | ws in front ensures ws.workspaceId != last.workspaceId {
        var i :| 0 <= i < n && workspaces[i] == ws;
      }
      ListedIs(entries, w, app, front, id);
      var before, after := Listed(entries, w, app, front), Listed(entries, w, app, workspaces);
      hide Listed;
      assert after == before[last.workspaceId := (app, w.nameOf(last))];
    }
  }

  /** The routes are replaced, and the workgroup found again; every workspace up to the `k`-th is written. */
  ghost predicate Reached(routes: seq<Route>, op: Op, w: World, k: nat)
    requires op.ReplaceApp?
  {
    && w.member && Refusal(routes, op.app, op.workspaces).None? && w.written && w.reread.There?
    && forall i | 0 <= i <= k :: w.published(i)
  }

  /**
   * Which workspaces a registration announces, whatever becomes of it: those of its list up to the
   * first that cannot be written, under the app and their own names, and no other entry changes.
   */
  lemma WhatIsListed(entries: Listing, routes: seq<Route>, op: Op, w: World, id: GrainId)
    requires op.ReplaceApp? && DistinctIds(op.workspaces)
    ensures var after := Listed(entries, w, op.app, PublishedOf(op, w, Outcome(routes, op, w)));
            && (forall k ::
                  0 <= k < |op.workspaces| && Reached(routes, op, w, k) && op.workspaces[k].workspaceId == id ==>
                  id in after && after[id] == (op.app, w.nameOf(op.workspaces[k])))
            && ((forall k | 0 <= k < |op.workspaces| && Reached(routes, op, w, k) ::
                  op.workspaces[k].workspaceId != id) ==>
                  (id in after <==> id in entries) && (id in entries ==> after[id] == entries[id]))
  {
    hide Listed, Sorted, Rows;
    var published := PublishedOf(op, w, Outcome(routes, op, w));
    ListedIs(entries, w, op.app, published, id);
    forall k | 0 <= k < |op.workspaces| ensures k < |published| <==> Reached(routes, op, w, k) {
    }
    forall k | 0 <= k < |published| ensures published[k] == op.workspaces[k] && published[k] in published {
    }
  }

  /** Whatever route a registration that fails leaves behind is this app's, for a workspace of its list. */
  lemma WhatAFailureLeaves(routes: seq<Route>, op: Op, w: World, id: GrainId)
    requires op.ReplaceApp? && Ordered(routes) && Unique(routes) && DistinctIds(op.workspaces)
    requires Outcome(routes, op, w).Err? && !FailsEarly(Outcome(routes, op, w))
    ensures Get(RoutesAfter(routes, op, Outcome(routes, op, w)), id) == RowAfter(op, id, Get(routes, id))
    ensures PublishedOf(op, w, Outcome(routes, op, w)) < op.workspaces || w.reread.Unreadable?
  {
    hide Applied, Ordered, Unique, RowAfter;
    OpRefinesAMap(routes, op, id);
  }

  /** A first registration whose only publication fails: it ends in an error, and its route stays. */
  lemma AFailedRegistrationLeavesARoute()
    ensures var ws := Registration(1, "/home/me/journal");
            var op := Op.ReplaceApp("journal", "/usr/bin/j", Spawned, [ws]);
            var w := World(true, true, There, k => false, ws => "journal");
            && Outcome([], op, w) == Err(NotPublished(0))
            && RoutesAfter([], op, Outcome([], op, w)) == [RowOf("journal", "/usr/bin/j", Spawned, ws)]
  {
    var ws := Registration(1, "/home/me/journal");
    var rows := Rows("journal", "/usr/bin/j", Spawned, [ws]);
    assert rows == [RowOf("journal", "/usr/bin/j", Spawned, ws)];
    assert [] + rows == rows && OtherApps([], "journal") == [] && rows[..0] == [];
    assert [ws][1..] == [];
    assert Refusal([], "journal", [ws]).None?;
    var w := World(true, true, There, k => false, ws => "journal");
    assert Publications(w, 0) == 0 && Publications(w, 1) == 0;
    assert Sorted(rows[..0]) == [] && Sorted(rows) == rows;
    var op := Op.ReplaceApp("journal", "/usr/bin/j", Spawned, [ws]);
    assert Applied([], op) == Ok(rows);
    assert Outcome([], op, w) == Err(NotPublished(0));
  }
}
