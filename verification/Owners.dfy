/** The table of online apps, the lists connections keep for it, and the limit on starting apps. */
module Owners {
  import HelloProtocol

  /** How to reach an app server: the control connection it registered on. */
  type Handle = nat

  /** A connection remembers each app it registered once. */
  function Recorded(apps: seq<string>, app: string): seq<string> {
    if app in apps then apps else apps + [app]
  }

  class Owners {
    var byApp: map<string, Handle>

    constructor ()
      ensures byApp == map[]
    {
      byApp := map[];
    }

    /** The handle is overwritten, whoever it was. */
    method Connect(app: string, peer: Handle)
      modifies this
      ensures byApp == old(byApp)[app := peer]
    {
      byApp := byApp[app := peer];
    }

    method Disconnect(app: string)
      modifies this
      ensures byApp == old(byApp) - {app}
    {
      byApp := byApp - {app};
    }
  }

  /** One connection's list of what to take offline when it ends. */
  class Session {
    var apps: seq<string>

    constructor ()
      ensures apps == []
    {
      apps := [];
    }

    method Record(app: string)
      modifies this
      ensures apps == Recorded(old(apps), app)
    {
      if app !in apps {
        apps := apps + [app];
      }
    }

    method Take() returns (taken: seq<string>)
      modifies this
      ensures taken == old(apps) && apps == []
    {
      taken := apps;
      apps := [];
    }
  }

  function AsSet(apps: seq<string>): set<string> {
    set app | app in apps
  }

  /** What ends with a control connection: every registration it made, and nothing else. */
  method CloseConnection(owners: Owners, session: Session)
    modifies owners, session
    ensures owners.byApp == old(owners.byApp) - AsSet(old(session.apps))
    ensures session.apps == []
  {
    var apps := session.Take();
    for i := 0 to |apps|
      invariant owners.byApp == old(owners.byApp) - AsSet(apps[..i])
      invariant session.apps == []
    {
      owners.Disconnect(apps[i]);
      assert apps[..i + 1] == apps[..i] + [apps[i]] && AsSet(apps[..i + 1]) == AsSet(apps[..i]) + {apps[i]};
    }
    assert apps[..|apps|] == apps;
  }

  // ----- starting a stopped app server -----

  const WAKE_INTERVAL: nat := 5_000_000_000

  /** When each app was last started, as far as the bridge knows. */
  type Starts = map<string, int>

  predicate MayWake(last: Starts, app: string, now: int) {
    app in last ==> HelloProtocol.Elapsed(last[app], now) >= WAKE_INTERVAL
  }

  function Woken(last: Starts, app: string, now: int): Starts {
    if MayWake(last, app, now) then last[app := now] else last
  }

  class Wakes {
    var last: Starts

    constructor ()
      ensures last == map[]
    {
      last := map[];
    }

    method Claim(app: string, now: int) returns (granted: bool)
      modifies this
      ensures granted == MayWake(old(last), app, now)
      ensures last == Woken(old(last), app, now)
    {
      if app in last && HelloProtocol.Elapsed(last[app], now) < WAKE_INTERVAL {
        return false;
      }
      last := last[app := now];
      granted := true;
    }
  }

  /** An occasion to start `app`. */
  datatype Ask = Ask(app: string, now: int)

  function LastAfter(asks: seq<Ask>): Starts {
    if asks == [] then map[] else Woken(LastAfter(asks[..|asks| - 1]), asks[|asks| - 1].app, asks[|asks| - 1].now)
  }

  /** Whether the `i`-th ask starts the app. */
  predicate Granted(asks: seq<Ask>, i: nat)
    requires i < |asks|
  {
    MayWake(LastAfter(asks[..i]), asks[i].app, asks[i].now)
  }

  /** What is remembered of an app is its latest grant. */
  lemma {:induction false} LastIsTheLatestGrant(asks: seq<Ask>, app: string) returns (k: int)
    ensures app in LastAfter(asks) <==> 0 <= k
    ensures 0 <= k ==> k < |asks| && asks[k].app == app && Granted(asks, k) && LastAfter(asks)[app] == asks[k].now
    ensures -1 <= k && forall i | k < i < |asks| && asks[i].app == app :: !Granted(asks, i)
    ensures forall i | 0 <= i < |asks| && asks[i].app == app && Granted(asks, i) :: 0 <= k && asks[i].now <= asks[k].now
    decreases |asks|
  {
    if asks == [] {
      k := -1;
    } else {
      var n := |asks| - 1;
      k := LastIsTheLatestGrant(asks[..n], app);
      hide MayWake;
      forall i | 0 <= i < n ensures Granted(asks, i) == Granted(asks[..n], i) {
        assert asks[..n][..i] == asks[..i];
      }
      if asks[n].app == app && Granted(asks, n) {
        if 0 <= k {
          LaterThanTheLast(LastAfter(asks[..n]), app, asks[n].now);
        }
        k := n;
      }
    }
  }

  lemma LaterThanTheLast(last: Starts, app: string, now: int)
    requires app in last && MayWake(last, app, now)
    ensures last[app] <= now
  {
  }

  /** An ask starts its app exactly when no start of the same app was granted in the interval before it. */
  lemma GrantedExactlyWhenQuiet(asks: seq<Ask>, j: nat)
    requires j < |asks|
    ensures Granted(asks, j) <==>
            forall i | 0 <= i < j && asks[i].app == asks[j].app && Granted(asks, i) ::
              asks[j].now - asks[i].now >= WAKE_INTERVAL
  {
    var k := LastIsTheLatestGrant(asks[..j], asks[j].app);
    assert forall i | 0 <= i < j :: asks[..j][..i] == asks[..i];
    assert forall i | 0 <= i < j :: Granted(asks, i) == Granted(asks[..j], i);
    if 0 <= k {
      assert Granted(asks, k) && asks[k].app == asks[j].app;
    }
  }

  /** How many starts of `app` were granted from `from` to `to`. */
  function Grants(asks: seq<Ask>, app: string, from: int, to: int): nat {
    if asks == [] then 0
    else
      var n := |asks| - 1;
      Grants(asks[..n], app, from, to)
      + if asks[n].app == app && from <= asks[n].now <= to && Granted(asks, n) then 1 else 0
  }

  lemma {:induction false} GrantsAreSpaced(asks: seq<Ask>, app: string, from: int, to: int)
    ensures Grants(asks, app, from, to) > 0 ==>
              && app in LastAfter(asks)
              && from <= LastAfter(asks)[app]
              && (Grants(asks, app, from, to) - 1) * WAKE_INTERVAL <= LastAfter(asks)[app] - from
              && (Grants(asks, app, from, to) - 1) * WAKE_INTERVAL <= to - from
    decreases |asks|
  {
    if asks != [] {
      GrantsAreSpaced(asks[..|asks| - 1], app, from, to);
    }
  }

  /**
   * However often peers ask, and whatever the clock does, an app is started at most once per
   * interval of any span, and once more.
   */
  lemma NoForkBomb(asks: seq<Ask>, app: string, from: int, to: int)
    requires from <= to
    ensures Grants(asks, app, from, to) <= (to - from) / WAKE_INTERVAL + 1
  {
    GrantsAreSpaced(asks, app, from, to);
  }
}
