/** The routing table as a sorted list of rows, and the map from workspace to row it stands for. */
module Routes {
  import opened Wrappers
  import opened Election

  datatype ManagedBy = Spawned | Service

  datatype Route = Route(workspaceId: GrainId, app: string, root: string, exe: string, managedBy: ManagedBy)

  /** An entry of a registration's list. */
  datatype Registration = Registration(workspaceId: GrainId, root: string)

  datatype Error = AlreadyOwned(workspaceId: GrainId, owner: string) | NotWritten

  // ----- the order of the rows -----

  /** Code point by code point. */
  predicate TextBefore(a: string, b: string) {
    b != [] && (a == [] || a[0] < b[0] || (a[0] == b[0] && TextBefore(a[1..], b[1..])))
  }

  /** By application, then by workspace. */
  predicate Before(a: Route, b: Route) {
    TextBefore(a.app, b.app) || (a.app == b.app && a.workspaceId < b.workspaceId)
  }

  lemma {:induction false} TextOrder(a: string, b: string, c: string)
    ensures !TextBefore(a, a)
    ensures TextBefore(a, b) && TextBefore(b, c) ==> TextBefore(a, c)
    ensures a == b || TextBefore(a, b) || TextBefore(b, a)
    decreases |a|
  {
    if a != [] {
      TextOrder(a[1..], if b == [] then [] else b[1..], if c == [] then [] else c[1..]);
      if b != [] && a[0] == b[0] && a[1..] == b[1..] {
        assert a == [a[0]] + a[1..] && b == [b[0]] + b[1..];
      }
    }
  }

  lemma NotBeforeIsTransitive(a: Route, b: Route, c: Route)
    requires !Before(b, a) && !Before(c, b)
    ensures !Before(c, a)
  {
    TextOrder(c.app, a.app, b.app);
    TextOrder(a.app, b.app, c.app);
    TextOrder(b.app, c.app, a.app);
    TextOrder(a.app, c.app, b.app);
  }

  lemma BeforeOneWay(a: Route, b: Route)
    requires Before(a, b)
    ensures !Before(b, a)
  {
    TextOrder(a.app, b.app, a.app);
    TextOrder(b.app, a.app, b.app);
  }

  ghost predicate Ordered(routes: seq<Route>) {
    forall i, j | 0 <= i < j < |routes| :: !Before(routes[j], routes[i])
  }

  /** Into a sorted list, after every row it does not come before. */
  function Inserted(routes: seq<Route>, r: Route): seq<Route> {
    if routes == [] then [r]
    else
      var last := routes[|routes| - 1];
      if Before(r, last) then Inserted(routes[..|routes| - 1], r) + [last] else routes + [r]
  }

  /** A stable sort. */
  function Sorted(routes: seq<Route>): seq<Route> {
    if routes == [] then [] else Inserted(Sorted(routes[..|routes| - 1]), routes[|routes| - 1])
  }

  lemma {:induction false} InsertedIsOrdered(routes: seq<Route>, r: Route)
    requires Ordered(routes)
    ensures Ordered(Inserted(routes, r))
    ensures forall x :: x in Inserted(routes, r) <==> x in routes || x == r
    decreases |routes|
  {
    hide Before;
    if routes != [] {
      var front, last := routes[..|routes| - 1], routes[|routes| - 1];
      assert routes == front + [last];
      if Before(r, last) {
        InsertedIsOrdered(front, r);
        BeforeOneWay(r, last);
        assert forall x | x in front :: !Before(last, x);
        assert forall x | x in Inserted(front, r) :: !Before(last, x);
      } else {
        forall x | x in routes ensures !Before(r, x) {
          if x != last {
            assert x in front && !Before(last, x);
            NotBeforeIsTransitive(x, last, r);
          }
        }
      }
    }
  }

  lemma {:induction false} SortedIsOrdered(routes: seq<Route>)
    ensures Ordered(Sorted(routes))
    ensures forall x :: x in Sorted(routes) <==> x in routes
    decreases |routes|
  {
    if routes != [] {
      var front, last := routes[..|routes| - 1], routes[|routes| - 1];
      assert routes == front + [last];
      SortedIsOrdered(front);
      InsertedIsOrdered(Sorted(front), last);
    }
  }

  lemma {:induction false} SortingTheSorted(routes: seq<Route>)
    requires Ordered(routes)
    ensures Sorted(routes) == routes
    decreases |routes|
  {
    if routes != [] {
      SortingTheSorted(routes[..|routes| - 1]);
    }
  }

  // ----- rows by workspace -----

  function Get(routes: seq<Route>, id: GrainId): Option<Route> {
    if routes == [] then None
    else if routes[0].workspaceId == id then Some(routes[0])
    else Get(routes[1..], id)
  }

  /** How many rows name a workspace. */
  function Count(routes: seq<Route>, id: GrainId): nat {
    if routes == [] then 0
    else Count(routes[..|routes| - 1], id) + if routes[|routes| - 1].workspaceId == id then 1 else 0
  }

  ghost predicate Unique(routes: seq<Route>) {
    forall id :: Count(routes, id) <= 1
  }

  lemma {:induction false} CountParts(a: seq<Route>, b: seq<Route>, id: GrainId)
    ensures Count(a + b, id) == Count(a, id) + Count(b, id)
    decreases |b|
  {
    if b == [] {
      assert a + b == a;
    } else {
      assert (a + b)[..|a + b| - 1] == a + b[..|b| - 1];
      CountParts(a, b[..|b| - 1], id);
    }
  }

  lemma {:induction false} InsertedCount(routes: seq<Route>, r: Route, id: GrainId)
    ensures Count(Inserted(routes, r), id) == Count(routes + [r], id)
    decreases |routes|
  {
    CountParts(routes, [r], id);
    if routes != [] {
      var front, last := routes[..|routes| - 1], routes[|routes| - 1];
      InsertedCount(front, r, id);
      CountParts(front, [r], id);
      CountParts(Inserted(front, r), [last], id);
      CountParts(front, [last], id);
      assert routes == front + [last];
    }
  }

  lemma {:induction false} SortedCount(routes: seq<Route>, id: GrainId)
    ensures Count(Sorted(routes), id) == Count(routes, id)
    decreases |routes|
  {
    if routes != [] {
      var front, last := routes[..|routes| - 1], routes[|routes| - 1];
      SortedCount(front, id);
      InsertedCount(Sorted(front), last, id);
      CountParts(Sorted(front), [last], id);
    }
  }

  lemma {:induction false} CountsMembers(routes: seq<Route>, id: GrainId)
    ensures Count(routes, id) > 0 <==> exists r :: r in routes && r.workspaceId == id
    ensures Get(routes, id).Some? <==> exists r :: r in routes && r.workspaceId == id
    ensures Get(routes, id).Some? ==> Get(routes, id).value in routes && Get(routes, id).value.workspaceId == id
    decreases |routes|
  {
    if routes != [] {
      var first, rest := routes[0], routes[1..];
      assert routes == [first] + rest;
      CountsMembers(rest, id);
      CountParts([first], rest, id);
      assert Count([first], id) == if first.workspaceId == id then 1 else 0;
    }
  }

  /** With one row each, a row is found exactly under its own workspace. */
  lemma {:induction false} GetIsMembership(routes: seq<Route>, r: Route)
    requires Count(routes, r.workspaceId) <= 1
    ensures r in routes <==> Get(routes, r.workspaceId) == Some(r)
    decreases |routes|
  {
    if routes != [] {
      var first, rest := routes[0], routes[1..];
      assert routes == [first] + rest;
      CountParts([first], rest, r.workspaceId);
      assert Count([first], r.workspaceId) == if first.workspaceId == r.workspaceId then 1 else 0;
      if first.workspaceId == r.workspaceId {
        CountsMembers(rest, r.workspaceId);
      } else {
        GetIsMembership(rest, r);
      }
    }
  }

  // ----- the operations -----

  /** Why a registration is refused: a workspace of its list is another app's. */
  function Refusal(routes: seq<Route>, app: string, workspaces: seq<Registration>): Option<Error> {
    if workspaces == [] then None
    else
      var existing := Get(routes, workspaces[0].workspaceId);
      if existing.Some? && existing.value.app != app
      then Some(AlreadyOwned(workspaces[0].workspaceId, existing.value.app))
      else Refusal(routes, app, workspaces[1..])
  }

  function RowOf(app: string, exe: string, managedBy: ManagedBy, ws: Registration): Route {
    Route(ws.workspaceId, app, ws.root, exe, managedBy)
  }

  function Rows(app: string, exe: string, managedBy: ManagedBy, workspaces: seq<Registration>): (r: seq<Route>)
    ensures |r| == |workspaces|
  {
    seq(|workspaces|, i requires 0 <= i < |workspaces| => RowOf(app, exe, managedBy, workspaces[i]))
  }

  function OtherApps(routes: seq<Route>, app: string): (r: seq<Route>)
    ensures forall x :: x in r <==> x in routes && x.app != app
  {
    Filter(routes, (x: Route) => x.app != app)
  }

  function OtherWorkspaces(routes: seq<Route>, id: GrainId): (r: seq<Route>)
    ensures forall x :: x in r <==> x in routes && x.workspaceId != id
  {
    Filter(routes, (x: Route) => x.workspaceId != id)
  }

  datatype Op =
    | ReplaceApp(app: string, exe: string, managedBy: ManagedBy, workspaces: seq<Registration>)
    | Put(route: Route)
    | Remove(id: GrainId)

  /** The rows after an operation, or why it is refused. */
  function Applied(routes: seq<Route>, op: Op): Result<seq<Route>, Error> {
    match op
    case ReplaceApp(app, exe, managedBy, workspaces) =>
      var refusal := Refusal(routes, app, workspaces);
      if refusal.Some? then Err(refusal.value)
      else Ok(Sorted(OtherApps(routes, app) + Rows(app, exe, managedBy, workspaces)))
    case Put(route) => Ok(Sorted(OtherWorkspaces(routes, route.workspaceId) + [route]))
    case Remove(id) => Ok(if Get(routes, id).None? then routes else Sorted(OtherWorkspaces(routes, id)))
  }

  class RouteTable {
    var routes: seq<Route>
    /** What the file holds; `None` is no file. */
    var file: Option<seq<Route>>

    /** Memory is the file's rows, sorted. */
    ghost predicate Valid()
      reads this
    {
      routes == Sorted(if file.Some? then file.value else [])
    }

    /** Start from what the file holds; `None` stays `None`. */
    constructor Load(file: Option<seq<Route>>)
      ensures Valid() && this.file == file
    {
      this.file := file;
      this.routes := Sorted(if file.Some? then file.value else []);
    }

    /** Write, then remember: `written` is false when the file could not be. */
    method Save(next: seq<Route>, written: bool) returns (r: Result<(), Error>)
      requires Valid()
      modifies this
      ensures Valid()
      ensures r == if written then Ok(()) else Err(NotWritten)
      ensures written ==> routes == Sorted(next) && file == Some(routes)
      ensures !written ==> routes == old(routes) && file == old(file)
    {
      var sorted := Sorted(next);
      if !written {
        return Err(NotWritten);
      }
      file := Some(sorted);
      routes := sorted;
      SortedIsOrdered(next);
      SortingTheSorted(sorted);
      r := Ok(());
    }

    method ReplaceApp(app: string, exe: string, managedBy: ManagedBy, workspaces: seq<Registration>, written: bool)
      returns (r: Result<(), Error>)
      requires Valid()
      modifies this
      ensures Valid()
      ensures var applied := Applied(old(routes), Op.ReplaceApp(app, exe, managedBy, workspaces));
              && r == (if applied.Err? then Err(applied.error) else if written then Ok(()) else Err(NotWritten))
              && if r.Ok? then routes == applied.value && file == Some(routes)
                else routes == old(routes) && file == old(file)
    {
      assert workspaces[0..] == workspaces;
      for i := 0 to |workspaces|
        invariant Refusal(routes, app, workspaces) == Refusal(routes, app, workspaces[i..])
      {
        var existing := Get(routes, workspaces[i].workspaceId);
        if existing.Some? && existing.value.app != app {
          return Err(AlreadyOwned(workspaces[i].workspaceId, existing.value.app));
        }
      }
      r := Save(OtherApps(routes, app) + Rows(app, exe, managedBy, workspaces), written);
    }

    method Put(route: Route, written: bool) returns (r: Result<(), Error>)
      requires Valid()
      modifies this
      ensures Valid()
      ensures r == if written then Ok(()) else Err(NotWritten)
      ensures if r.Ok? then Ok(routes) == Applied(old(routes), Op.Put(route)) && file == Some(routes)
              else routes == old(routes) && file == old(file)
    {
      r := Save(OtherWorkspaces(routes, route.workspaceId) + [route], written);
    }

    method Remove(id: GrainId, written: bool) returns (r: Result<bool, Error>)
      requires Valid()
      modifies this
      ensures Valid()
      ensures r == (if Get(old(routes), id).None? then Ok(false) else if written then Ok(true) else Err(NotWritten))
      ensures if r.Ok? then Ok(routes) == Applied(old(routes), Op.Remove(id)) else routes == old(routes)
      ensures file == if r == Ok(true) then Some(routes) else old(file)
    {
      if Get(routes, id).None? {
        return Ok(false);
      }
      var saved := Save(OtherWorkspaces(routes, id), written);
      r := if saved.Ok? then Ok(true) else Err(saved.error);
    }
  }

  // ----- what every operation keeps -----

  ghost predicate DistinctIds(workspaces: seq<Registration>) {
    forall i, j | 0 <= i < j < |workspaces| :: workspaces[i].workspaceId != workspaces[j].workspaceId
  }

  lemma {:induction false} RefusedIff(routes: seq<Route>, app: string, workspaces: seq<Registration>)
    ensures Refusal(routes, app, workspaces).Some? <==>
            exists ws ::
              ws in workspaces && Get(routes, ws.workspaceId).Some? && Get(routes, ws.workspaceId).value.app != app
    decreases |workspaces|
  {
    if workspaces != [] {
      assert workspaces == [workspaces[0]] + workspaces[1..];
      RefusedIff(routes, app, workspaces[1..]);
    }
  }

  lemma {:induction false} FilteredCount(routes: seq<Route>, keep: Route -> bool, id: GrainId)
    ensures Count(Filter(routes, keep), id) <= Count(routes, id)
    decreases |routes|
  {
    if routes != [] {
      FilteredCount(routes[1..], keep, id);
      CountParts([routes[0]], routes[1..], id);
      CountParts([routes[0]], Filter(routes[1..], keep), id);
      assert routes == [routes[0]] + routes[1..];
    }
  }

  lemma {:induction false} DistinctCount(app: string, exe: string, managedBy: ManagedBy, workspaces: seq<Registration>)
    ensures Unique(Rows(app, exe, managedBy, workspaces)) <==> DistinctIds(workspaces)
    decreases |workspaces|
  {
    var rows := Rows(app, exe, managedBy, workspaces);
    if DistinctIds(workspaces) {
      if workspaces != [] {
        var n := |workspaces| - 1;
        DistinctCount(app, exe, managedBy, workspaces[..n]);
        assert rows[..n] == Rows(app, exe, managedBy, workspaces[..n]);
        forall id ensures Count(rows, id) <= 1 {
          CountsMembers(rows[..n], id);
        }
      }
    } else {
      var i, j :| 0 <= i < j < |workspaces| && workspaces[i].workspaceId == workspaces[j].workspaceId;
      var id := workspaces[j].workspaceId;
      assert rows == rows[..j] + [rows[j]] + rows[j + 1..];
      CountParts(rows[..j] + [rows[j]], rows[j + 1..], id);
      CountParts(rows[..j], [rows[j]], id);
      CountsMembers(rows[..j], id);
      assert rows[..j][i].workspaceId == id && rows[..j][i] in rows[..j];
      assert Count([rows[j]], id) == 1;
    }
  }

  /**
   * A registration that is accepted keeps one row per workspace exactly when its own list names
   * none twice; nothing else is asked of it.
   */
  lemma ReplacingKeepsUnique(routes: seq<Route>, app: string, exe: string, managedBy: ManagedBy,
                             workspaces: seq<Registration>)
    requires Unique(routes) && Refusal(routes, app, workspaces).None?
    ensures Unique(Sorted(OtherApps(routes, app) + Rows(app, exe, managedBy, workspaces))) <==> DistinctIds(workspaces)
  {
    hide Sorted, Rows, Before;
    var others, rows := OtherApps(routes, app), Rows(app, exe, managedBy, workspaces);
    var next := Sorted(others + rows);
    DistinctCount(app, exe, managedBy, workspaces);
    forall id
      ensures Count(next, id) == Count(others, id) + Count(rows, id) && (Count(rows, id) > 0 ==> Count(others, id) == 0)
      ensures Count(others, id) <= 1
    {
      SortedCount(others + rows, id);
      CountParts(others, rows, id);
      FilteredCount(routes, (x: Route) => x.app != app, id);
      if Count(rows, id) > 0 {
        NotAnothers(routes, app, exe, managedBy, workspaces, id);
      }
    }
    assert forall id :: Count(rows, id) <= 1 <==> Count(next, id) <= 1;
  }

  lemma NotAnothers(routes: seq<Route>, app: string, exe: string, managedBy: ManagedBy, workspaces: seq<Registration>,
                    id: GrainId)
    requires Unique(routes) && Refusal(routes, app, workspaces).None?
    requires Count(Rows(app, exe, managedBy, workspaces), id) > 0
    ensures Count(OtherApps(routes, app), id) == 0
  {
    var rows := Rows(app, exe, managedBy, workspaces);
    CountsMembers(rows, id);
    var row :| row in rows && row.workspaceId == id;
    var k :| 0 <= k < |rows| && rows[k] == row;
    assert workspaces[k] in workspaces;
    RefusedIff(routes, app, workspaces);
    CountsMembers(OtherApps(routes, app), id);
    forall r | r in OtherApps(routes, app) ensures r.workspaceId != id {
      GetIsMembership(routes, r);
    }
  }

  /** The row one operation leaves for a workspace, from the row it had. */
  function RowAfter(op: Op, id: GrainId, before: Option<Route>): Option<Route> {
    match op
    case ReplaceApp(app, exe, managedBy, workspaces) =>
      var rows := Rows(app, exe, managedBy, workspaces);
      if Get(rows, id).Some? then Get(rows, id)
      else if before.Some? && before.value.app == app then None
      else before
    case Put(route) => if id == route.workspaceId then Some(route) else before
    case Remove(gone) => if id == gone then None else before
  }

  ghost predicate WellNamed(op: Op) {
    op.ReplaceApp? ==> DistinctIds(op.workspaces)
  }

  lemma OpKeepsUnique(routes: seq<Route>, op: Op)
    requires Unique(routes) && Ordered(routes) && WellNamed(op) && Applied(routes, op).Ok?
    ensures Unique(Applied(routes, op).value) && Ordered(Applied(routes, op).value)
  {
    hide Sorted, Rows, Before;
    match op
    case ReplaceApp(app, exe, managedBy, workspaces) =>
      ReplacingKeepsUnique(routes, app, exe, managedBy, workspaces);
      SortedIsOrdered(OtherApps(routes, app) + Rows(app, exe, managedBy, workspaces));
    case Put(route) =>
      var others := OtherWorkspaces(routes, route.workspaceId);
      SortedIsOrdered(others + [route]);
      forall id ensures Count(Sorted(others + [route]), id) <= 1 {
        SortedCount(others + [route], id);
        CountParts(others, [route], id);
        CountsMembers(others, id);
        assert Count([route], id) == if route.workspaceId == id then 1 else 0;
        FilteredCount(routes, (x: Route) => x.workspaceId != route.workspaceId, id);
      }
    case Remove(gone) =>
      SortedIsOrdered(OtherWorkspaces(routes, gone));
      forall id ensures Count(Sorted(OtherWorkspaces(routes, gone)), id) <= 1 {
        SortedCount(OtherWorkspaces(routes, gone), id);
        FilteredCount(routes, (x: Route) => x.workspaceId != gone, id);
      }
  }

  /**
   * The table is a map from workspace to row: a registration leaves exactly its list as that
   * app's rows and every other app's rows as they were, and each operation does to every
   * workspace what `RowAfter` says and no more.
   */
  lemma OpRefinesAMap(routes: seq<Route>, op: Op, id: GrainId)
    requires Unique(routes) && Ordered(routes) && WellNamed(op) && Applied(routes, op).Ok?
    ensures Get(Applied(routes, op).value, id) == RowAfter(op, id, Get(routes, id))
  {
    hide Sorted, Before, Rows;
    OpKeepsUnique(routes, op);
    var next := Applied(routes, op).value;
    var expected := RowAfter(op, id, Get(routes, id));
    MembersAfter(routes, op);
    CountsMembers(routes, id);
    CountsMembers(next, id);
    if op.ReplaceApp? {
      var rows := Rows(op.app, op.exe, op.managedBy, op.workspaces);
      CountsMembers(rows, id);
      DistinctCount(op.app, op.exe, op.managedBy, op.workspaces);
      forall r | r in rows && r.workspaceId == id ensures Get(rows, id) == Some(r) {
        GetIsMembership(rows, r);
      }
    }
    forall r | r in routes && r.workspaceId == id ensures Get(routes, id) == Some(r) {
      GetIsMembership(routes, r);
    }
    forall r | r in next && r.workspaceId == id ensures Get(next, id) == Some(r) {
      GetIsMembership(next, r);
    }
    if expected.Some? {
      assert expected.value in next && expected.value.workspaceId == id;
    } else {
      forall r | r in next ensures r.workspaceId != id {}
    }
  }

  /**
   * The same in terms of the rows: after an accepted registration a listed workspace has the row of
   * its entry, with the program and the management it registered with; of the others this app's
   * rows are gone and every other app's are as they were.
   */
  lemma WhatARegistrationLeaves(routes: seq<Route>, app: string, exe: string, managedBy: ManagedBy,
                                workspaces: seq<Registration>, id: GrainId)
    requires Unique(routes) && Ordered(routes) && DistinctIds(workspaces)
    requires Applied(routes, ReplaceApp(app, exe, managedBy, workspaces)).Ok?
    ensures var row := Get(Applied(routes, ReplaceApp(app, exe, managedBy, workspaces)).value, id);
            && (forall ws | ws in workspaces && ws.workspaceId == id ::
                  && row.Some? && row.value.workspaceId == id && row.value.app == app && row.value.root == ws.root
                  && row.value.exe == exe && row.value.managedBy == managedBy)
            && ((forall ws | ws in workspaces :: ws.workspaceId != id) ==>
                  row == if Get(routes, id).Some? && Get(routes, id).value.app == app then None else Get(routes, id))
  {
    hide Applied;
    OpRefinesAMap(routes, ReplaceApp(app, exe, managedBy, workspaces), id);
    var rows := Rows(app, exe, managedBy, workspaces);
    CountsMembers(rows, id);
    DistinctCount(app, exe, managedBy, workspaces);
    forall ws | ws in workspaces && ws.workspaceId == id
      ensures Get(rows, id) == Some(Route(id, app, ws.root, exe, managedBy))
    {
      var k :| 0 <= k < |workspaces| && workspaces[k] == ws;
      assert rows[k] == Route(id, app, ws.root, exe, managedBy);
      GetIsMembership(rows, rows[k]);
    }
  }

  lemma MembersAfter(routes: seq<Route>, op: Op)
    requires Applied(routes, op).Ok?
    ensures var next := Applied(routes, op).value;
            match op
            case ReplaceApp(app, exe, managedBy, workspaces) =>
              forall r :: r in next <==> (r in routes && r.app != app) || r in Rows(app, exe, managedBy, workspaces)
            case Put(route) =>
              forall r :: r in next <==> (r in routes && r.workspaceId != route.workspaceId) || r == route
            case Remove(id) => forall r :: r in next <==> r in routes && r.workspaceId != id
  {
    hide Sorted, Rows;
    match op
    case ReplaceApp(app, exe, managedBy, workspaces) =>
      SortedIsOrdered(OtherApps(routes, app) + Rows(app, exe, managedBy, workspaces));
    case Put(route) => SortedIsOrdered(OtherWorkspaces(routes, route.workspaceId) + [route]);
    case Remove(id) =>
      SortedIsOrdered(OtherWorkspaces(routes, id));
      CountsMembers(routes, id);
  }

  /** The rows after a run of operations from an empty table; a refused one changes nothing. */
  function After(ops: seq<Op>): seq<Route> {
    if ops == [] then []
    else
      var before := After(ops[..|ops| - 1]);
      var applied := Applied(before, ops[|ops| - 1]);
      if applied.Ok? then applied.value else before
  }

  /** Text order, by its characters: `b` goes on where `a` ends, or has the greater one where they first differ. */
  ghost predicate Precedes(a: string, b: string) {
    exists k: nat :: k <= |a| && k < |b| && a[..k] == b[..k] && (k == |a| || a[k] < b[k])
  }

  lemma {:induction false} TextBeforeIs(a: string, b: string)
    ensures TextBefore(a, b) ==> Precedes(a, b)
    decreases |a|
  {
    if TextBefore(a, b) {
      if a == [] || a[0] < b[0] {
        assert a[..0] == b[..0];
      } else {
        TextBeforeIs(a[1..], b[1..]);
        var x, y := a[1..], b[1..];
        var k: nat :| k <= |x| && k < |y| && x[..k] == y[..k] && (k == |x| || x[k] < y[k]);
        assert a[..k + 1] == [a[0]] + x[..k] && b[..k + 1] == [b[0]] + y[..k];
      }
    }
  }

  /** After any operations the rows go by their apps' names, those of one app by their workspaces. */
  lemma RowsByAppThenWorkspace(ops: seq<Op>, i: nat, j: nat)
    requires (forall op | op in ops :: WellNamed(op)) && i < j < |After(ops)|
    ensures var a, b := After(ops)[i], After(ops)[j];
            if a.app == b.app then a.workspaceId < b.workspaceId else Precedes(a.app, b.app)
  {
    hide Precedes, After, Count, TextBefore;
    RunsKeepTheTable(ops);
    var rows := After(ops);
    var a, b := rows[i], rows[j];
    assert !Before(b, a);
    TextOrder(a.app, b.app, a.app);
    TextBeforeIs(a.app, b.app);
    if a.workspaceId == b.workspaceId {
      OnlyOnce(rows, i, j);
    }
  }

  lemma OnlyOnce(rows: seq<Route>, i: nat, j: nat)
    requires i < j < |rows| && rows[i].workspaceId == rows[j].workspaceId
    ensures Count(rows, rows[i].workspaceId) >= 2
  {
    var id := rows[i].workspaceId;
    assert rows == rows[..j] + rows[j..];
    CountParts(rows[..j], rows[j..], id);
    CountsMembers(rows[..j], id);
    CountsMembers(rows[j..], id);
    assert rows[..j][i] in rows[..j] && rows[j..][0] in rows[j..];
  }

  /** Whatever is registered, put and removed: rows in order, one per workspace. */
  lemma {:induction false} RunsKeepTheTable(ops: seq<Op>)
    requires forall op | op in ops :: WellNamed(op)
    ensures Ordered(After(ops)) && Unique(After(ops))
  {
    if ops != [] {
      var front, last := ops[..|ops| - 1], ops[|ops| - 1];
      assert forall op | op in front :: op in ops;
      RunsKeepTheTable(front);
      if Applied(After(front), last).Ok? {
        OpKeepsUnique(After(front), last);
      }
    }
  }

  /** Two tables in order, with one row per workspace, are one table when they hold the same rows. */
  lemma {:induction false} SameRowsSameTable(a: seq<Route>, b: seq<Route>)
    requires Ordered(a) && Ordered(b) && Unique(a) && Unique(b)
    requires forall r :: r in a <==> r in b
    ensures a == b
    decreases |a|
  {
    hide Before, Count;
    if a == [] {
      SomeRow(b);
    } else {
      var x := a[|a| - 1];
      assert x in b;
      var y := b[|b| - 1];
      assert y in a;
      LastRow(a, y);
      LastRow(b, x);
      if x != y {
        SameKeySameRow(a, x, y);
      }
      WithoutLast(a);
      WithoutLast(b);
      assert a == a[..|a| - 1] + [x] && b == b[..|b| - 1] + [x];
      SameRowsSameTable(a[..|a| - 1], b[..|b| - 1]);
    }
  }

  lemma SomeRow(routes: seq<Route>)
    ensures routes != [] ==> exists r :: r in routes
  {
    if routes != [] {
      assert routes[0] in routes;
    }
  }

  /** No row comes after the last one. */
  lemma LastRow(routes: seq<Route>, r: Route)
    requires Ordered(routes) && r in routes
    ensures r == routes[|routes| - 1] || !Before(routes[|routes| - 1], r)
  {
    var i :| 0 <= i < |routes| && routes[i] == r;
  }

  lemma SameKeySameRow(routes: seq<Route>, x: Route, y: Route)
    requires Unique(routes) && x in routes && y in routes
    requires !Before(x, y) && !Before(y, x)
    ensures x == y
  {
    TextOrder(x.app, y.app, x.app);
    GetIsMembership(routes, x);
    GetIsMembership(routes, y);
  }

  lemma WithoutLast(routes: seq<Route>)
    requires routes != [] && Ordered(routes) && Unique(routes)
    ensures var front, last := routes[..|routes| - 1], routes[|routes| - 1];
            Ordered(front) && Unique(front) && forall r :: r in front <==> r in routes && r != last
  {
    hide Before;
    var front, last := routes[..|routes| - 1], routes[|routes| - 1];
    assert routes == front + [last];
    forall id ensures Count(front, id) <= 1 {
      assert Count(routes, id) <= 1;
    }
    assert last !in front by {
      CountsMembers(front, last.workspaceId);
      assert Count(routes, last.workspaceId) == Count(front, last.workspaceId) + 1;
    }
  }

  /** The rows an app has are exactly those a registration asks for. */
  ghost predicate HasExactly(routes: seq<Route>, op: Op)
    requires op.ReplaceApp?
  {
    forall r :: (r in routes && r.app == op.app) <==> r in Rows(op.app, op.exe, op.managedBy, op.workspaces)
  }

  /** Accepting a registration changes nothing exactly when the app has those rows already. */
  lemma NothingToReplaceIff(routes: seq<Route>, op: Op)
    requires op.ReplaceApp? && Unique(routes) && Ordered(routes) && WellNamed(op) && Applied(routes, op).Ok?
    ensures Applied(routes, op).value == routes <==> HasExactly(routes, op)
  {
    hide Applied, Before, Unique, Ordered, Rows;
    var next := Applied(routes, op).value;
    OpKeepsUnique(routes, op);
    MembersAfter(routes, op);
    OwnRows(op);
    if HasExactly(routes, op) {
      assert forall r :: r in next <==> r in routes;
      SameRowsSameTable(next, routes);
    }
  }

  lemma OwnRows(op: Op)
    requires op.ReplaceApp?
    ensures forall r | r in Rows(op.app, op.exe, op.managedBy, op.workspaces) :: r.app == op.app
  {
  }

  /** A list that names a workspace twice is accepted, and the table then has two rows for it. */
  lemma AWorkspaceNamedTwice(app: string, exe: string)
    ensures var op := Op.ReplaceApp(app, exe, Spawned, [Registration(1, "/a"), Registration(1, "/b")]);
            Applied([], op).Ok? && Count(Applied([], op).value, 1) == 2
  {
    hide Sorted;
    var list := [Registration(1, "/a"), Registration(1, "/b")];
    var rows := Rows(app, exe, Spawned, list);
    RefusedIff([], app, list);
    assert OtherApps([], app) + rows == rows;
    SortedCount(rows, 1);
    assert rows[..1][..0] == [];
    assert Count(rows[..1], 1) == 1 && Count(rows, 1) == 2;
  }
}
