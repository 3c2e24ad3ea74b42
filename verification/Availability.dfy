/** Uptime accounting: minutes per UTC day over a week, and the tier they amount to. */
module Availability {
  import opened Wrappers
  import HelloProtocol

  // Time is in nanoseconds, on either clock.
  const SECOND := 1_000_000_000
  const MINUTE := 60_000_000_000
  const HOUR := 3_600_000_000_000
  const DAY := 86_400_000_000_000
  const TICK := MINUTE
  const WINDOW_DAYS := 7
  const DAY_MINUTES := 1440

  function Min(a: int, b: int): int { if a <= b then a else b }

  function Max(a: int, b: int): int { if a >= b then a else b }

  /** The UTC day an instant is in, and the instant a day starts at. */
  function DayOf(t: int): int { t / DAY }

  function Midnight(day: int): int { day * DAY }

  /** A host's history: its first instant, a count of minutes for each day, and the remainder under a minute. */
  datatype Record = Record(since: int, minutes: map<int, nat>, carry: nat)

  function Fresh(now: int): Record {
    Record(now, map[], 0)
  }

  /** What comes back after a restart: the carry is not written. */
  function Reloaded(rec: Record): Record {
    rec.(carry := 0)
  }

  /** The smallest of both clocks' progress and two ticks, nothing being taken off for a clock set back. */
  function Credit(monotonic: nat, wall: int): (up: nat)
    ensures up <= monotonic && up <= 2 * TICK
    ensures up <= Max(wall, 0)
    ensures up == monotonic || up == 2 * TICK || up == Max(wall, 0)
  {
    Min(Min(monotonic, Max(wall, 0)), 2 * TICK)
  }

  function WindowStart(now: int): int {
    DayOf(now) - (WINDOW_DAYS - 1)
  }

  function On(minutes: map<int, nat>, day: int): nat {
    if day in minutes then minutes[day] else 0
  }

  /** Whole minutes in `carry + up`. */
  function Whole(rec: Record, up: nat): nat {
    (rec.carry + up) / SECOND / 60
  }

  const U32: nat := 0x1_0000_0000

  /** A day's count with `whole` more minutes, in 32 bits and capped. */
  function Counted(had: nat, whole: nat): (r: nat)
    ensures r <= DAY_MINUTES
  {
    Min(Min(had + whole % U32, U32 - 1), DAY_MINUTES)
  }

  function Within(minutes: map<int, nat>, first: int): map<int, nat> {
    map day | day in minutes && day >= first :: minutes[day]
  }

  /** The record with `up` credited to the day `now` is in, and the days out of the window dropped. */
  function Added(rec: Record, now: int, up: nat): (r: Record)
    ensures r.carry < MINUTE
  {
    var whole := Whole(rec, up);
    var minutes := if whole > 0 then rec.minutes[DayOf(now) := Counted(On(rec.minutes, DayOf(now)), whole)]
      else rec.minutes;
    Record(rec.since, Within(minutes, WindowStart(now)), rec.carry + up - whole * MINUTE)
  }

  // ----- what the record says -----

  /** The sum of a map's values. */
  ghost function Sum(minutes: map<int, nat>): nat {
    if minutes == map[] then 0
    else
      var day := AnyOf(minutes.Keys);
      minutes[day] + Sum(minutes - {day})
  }

  ghost function AnyOf<T>(s: set<T>): (x: T)
    requires s != {}
    ensures x in s
  {
    var x :| x in s;
    x
  }

  /** Minutes up from day `first` on. */
  ghost function Up(minutes: map<int, nat>, first: int): nat {
    Sum(Within(minutes, first))
  }

  /** Where the measured window starts: its first midnight, or the start of the history. */
  function WindowFrom(rec: Record, now: int): int {
    Max(Midnight(WindowStart(now)), rec.since)
  }

  /** An exact ratio, `up` minutes out of `of`. */
  datatype Share = Share(up: nat, of: nat)

  /** `None` with less than an hour to measure. */
  ghost function ShareAt(rec: Record, now: int): Option<Share> {
    var span := now - WindowFrom(rec, now);
    if span < HOUR then None
    else Some(Share(Min(Up(rec.minutes, WindowStart(now)), span / MINUTE), span / MINUTE))
  }

  /** Tiers at 99, 95 and 80 per cent. */
  function TierOf(share: Share): (tier: nat)
    ensures tier <= 3
    ensures share.up == share.of ==> tier == 3
  {
    if 100 * share.up >= 99 * share.of then 3
    else if 100 * share.up >= 95 * share.of then 2
    else if 100 * share.up >= 80 * share.of then 1
    else 0
  }

  /** The announced tier: one lower while the history is shorter than the window. */
  function Announced(share: Share, history: int): nat {
    var tier := TierOf(share);
    if history < WINDOW_DAYS * DAY then Max(tier - 1, 0) else tier
  }

  ghost function TierAt(rec: Record, now: int): Option<nat> {
    match ShareAt(rec, now)
    case None => None
    case Some(share) => Some(Announced(share, now - rec.since))
  }

  /**
   * The tier announced for `up` of the window's `minutes`: none under an hour. A host with a week
   * of history has tier 3, 2 or 1 exactly when it was up for at least 99, 95 or 80 per cent of
   * them, one with less has tier 2 or 1 for what would otherwise give 3 or 2, and 0 for the rest.
   */
  ghost predicate TierIs(tier: Option<nat>, up: nat, minutes: int, history: int) {
    && (tier.None? <==> minutes < 60)
    && (tier.Some? && history >= 7 * DAY ==>
          && tier.value <= 3
          && (tier.value >= 3 <==> 100 * up >= 99 * minutes)
          && (tier.value >= 2 <==> 100 * up >= 95 * minutes)
          && (tier.value >= 1 <==> 100 * up >= 80 * minutes))
    && (tier.Some? && history < 7 * DAY ==>
          && tier.value <= 2
          && (tier.value >= 2 <==> 100 * up >= 99 * minutes)
          && (tier.value >= 1 <==> 100 * up >= 95 * minutes))
  }

  /** Every tier is announced exactly when the minutes up reach its bound, for every record and instant. */
  lemma TierByMinutes(rec: Record, now: int)
    ensures var midnight := (DayOf(now) - 6) * DAY;
            var minutes := (now - if midnight >= rec.since then midnight else rec.since) / MINUTE;
            TierIs(TierAt(rec, now), Up(rec.minutes, DayOf(now) - 6), minutes, now - rec.since)
  {
    hide Up;
  }

  /** More minutes on any of the days, and none fewer, never lower the tier. */
  lemma MoreMinutesNeverLower(rec: Record, more: map<int, nat>, now: int)
    requires forall day | day in rec.minutes :: day in more && rec.minutes[day] <= more[day]
    ensures TierAt(rec, now).None? <==> TierAt(rec.(minutes := more), now).None?
    ensures TierAt(rec, now).Some? ==> TierAt(rec, now).value <= TierAt(rec.(minutes := more), now).value
  {
    hide Up;
    UpMonotone(rec.minutes, more, WindowStart(now));
    TierByMinutes(rec, now);
    TierByMinutes(rec.(minutes := more), now);
  }

  lemma UpMonotone(minutes: map<int, nat>, more: map<int, nat>, first: int)
    requires forall day | day in minutes :: day in more && minutes[day] <= more[day]
    ensures Up(minutes, first) <= Up(more, first)
  {
    SumMonotone(Within(minutes, first), Within(more, first));
  }

  lemma {:induction false} SumMonotone(minutes: map<int, nat>, more: map<int, nat>)
    requires forall day | day in minutes :: day in more && minutes[day] <= more[day]
    ensures Sum(minutes) <= Sum(more)
    decreases |minutes|
  {
    if minutes != map[] {
      var day := AnyOf(minutes.Keys);
      SumRemove(more, day);
      SumMonotone(minutes - {day}, more - {day});
    }
  }

  // ----- one process -----

  /** What both clocks say at one instant. */
  datatype Reading = Reading(mono: int, wall: int)

  /** The time credited for the tick from `last` to `now`. */
  function CreditFor(last: Reading, now: Reading): (up: nat)
    ensures up <= 2 * TICK
  {
    Credit(HelloProtocol.Elapsed(last.mono, now.mono), now.wall - last.wall)
  }

  function Ticked(rec: Record, last: Reading, now: Reading): Record {
    Added(rec, now.wall, CreditFor(last, now))
  }

  function LastOf(first: Reading, readings: seq<Reading>): Reading {
    if readings == [] then first else readings[|readings| - 1]
  }

  /** The record after the ticks at `readings`, the first measured from `first`. */
  function Ran(rec: Record, first: Reading, readings: seq<Reading>): Record {
    if readings == [] then rec
    else
      var front := readings[..|readings| - 1];
      Ticked(Ran(rec, first, front), LastOf(first, front), readings[|readings| - 1])
  }

  /** The record as a bridge keeps it. */
  class Recorder {
    const since: int
    var minutes: map<int, nat>
    var carry: nat

    function Value(): Record
      reads this
    {
      Record(since, minutes, carry)
    }

    constructor (rec: Record)
      ensures Value() == rec
    {
      since, minutes, carry := rec.since, rec.minutes, rec.carry;
    }

    method Add(now: int, up: nat)
      modifies this
      ensures Value() == Added(old(Value()), now, up)
    {
      carry := carry + up;
      var whole := carry / SECOND / 60;
      carry := carry - whole * 60 * SECOND;
      if whole > 0 {
        minutes := minutes[DayOf(now) := Counted(On(minutes, DayOf(now)), whole)];
      }
      var start := WindowStart(now);
      minutes := map day | day in minutes && day >= start :: minutes[day];
    }

    method Advance(last: Reading, now: Reading)
      modifies this
      ensures Value() == Ticked(old(Value()), last, now)
    {
      var monotonic := HelloProtocol.Elapsed(last.mono, now.mono);
      Add(now.wall, Credit(monotonic, now.wall - last.wall));
    }

    method Tier(now: int) returns (tier: Option<nat>)
      ensures tier == TierAt(Value(), now)
      ensures var midnight := (DayOf(now) - 6) * DAY;
              var minutes := (now - if midnight >= since then midnight else since) / MINUTE;
              TierIs(tier, Up(this.minutes, DayOf(now) - 6), minutes, now - since)
    {
      hide TierIs;
      TierByMinutes(Value(), now);
      var start := WindowStart(now);
      var span := now - Max(Midnight(start), since);
      if span < HOUR {
        return None;
      }
      var up := 0;
      var left := set day | day in minutes && day >= start;
      assert (map day | day in left :: minutes[day]) == Within(minutes, start);
      while left != {}
        invariant left <= set day | day in minutes && day >= start
        invariant up + Sum(map day | day in left :: minutes[day]) == Up(minutes, start)
      {
        ghost var some := Member(left);
        var day :| day in left;
        SumRemove(map d | d in left :: minutes[d], day);
        assert (map d | d in left :: minutes[d]) - {day} == map d | d in left - {day} :: minutes[d];
        up := up + minutes[day];
        left := left - {day};
      }
      tier := Some(Announced(Share(Min(up, span / MINUTE), span / MINUTE), now - since));
    }

    /** The loop of a running bridge: credit every tick, and announce the tier after it. */
    method Run(first: Reading, readings: seq<Reading>) returns (tiers: seq<Option<nat>>)
      modifies this
      ensures Value() == Ran(old(Value()), first, readings)
      ensures |tiers| == |readings|
      ensures forall i | 0 <= i < |readings| ::
        tiers[i] == TierAt(Ran(old(Value()), first, readings[..i + 1]), readings[i].wall)
    {
      hide Ticked, CreditFor, TierAt, Added;
      tiers := [];
      var last := first;
      assert readings[..|readings|] == readings;
      for n := 0 to |readings|
        invariant last == LastOf(first, readings[..n])
        invariant Value() == Ran(old(Value()), first, readings[..n])
        invariant |tiers| == n
        invariant forall i | 0 <= i < n ::
          tiers[i] == TierAt(Ran(old(Value()), first, readings[..i + 1]), readings[i].wall)
      {
        var now := readings[n];
        assert readings[..n + 1][..n] == readings[..n];
        Advance(last, now);
        var tier := Tier(now.wall);
        tiers := tiers + [tier];
        last := now;
      }
    }
  }

  // ----- sums -----

  lemma {:induction false} SumRemove(minutes: map<int, nat>, day: int)
    requires day in minutes
    ensures Sum(minutes) == minutes[day] + Sum(minutes - {day})
    decreases |minutes|
  {
    var first := AnyOf(minutes.Keys);
    if first != day {
      SumRemove(minutes - {first}, day);
      SumRemove(minutes - {day}, first);
      assert minutes - {first} - {day} == minutes - {day} - {first};
    }
  }

  lemma UpPut(minutes: map<int, nat>, day: int, value: nat, first: int)
    ensures Up(minutes[day := value], first) == if day < first then Up(minutes, first)
            else Up(minutes, first) - On(minutes, day) + value
  {
    var before, after := Within(minutes, first), Within(minutes[day := value], first);
    if day < first {
      assert after == before;
    } else {
      SumRemove(after, day);
      if day in minutes {
        SumRemove(before, day);
        assert after - {day} == before - {day};
      } else {
        assert after - {day} == before;
      }
    }
  }

  lemma {:induction false} SumFewer(minutes: map<int, nat>, first: int)
    ensures Up(minutes, first) <= Sum(minutes)
    decreases |minutes|
  {
    if minutes == map[] {
      assert Within(minutes, first) == minutes;
    } else {
      var day := AnyOf(minutes.Keys);
      SumFewer(minutes - {day}, first);
      if day >= first {
        SumRemove(Within(minutes, first), day);
        assert Within(minutes, first) - {day} == Within(minutes - {day}, first);
      } else {
        assert Within(minutes, first) == Within(minutes - {day}, first);
      }
    }
  }

  lemma UpWithin(minutes: map<int, nat>, start: int, first: int)
    ensures Up(Within(minutes, start), first) == Up(minutes, Max(start, first)) <= Up(minutes, first)
  {
    assert Within(Within(minutes, start), first) == Within(minutes, Max(start, first));
    assert Within(Within(minutes, first), Max(start, first)) == Within(minutes, Max(start, first));
    SumFewer(Within(minutes, first), Max(start, first));
  }

  lemma UpBeyond(minutes: map<int, nat>, first: int)
    requires forall day | day in minutes :: day < first
    ensures Up(minutes, first) == 0
  {
    assert Within(minutes, first) == map[];
  }

  // ----- one tick -----

  /** What one credit does to the minutes from day `first` on, `first` being in the window. */
  lemma UpAfterAdding(rec: Record, now: int, up: nat, first: int)
    requires first >= WindowStart(now)
    ensures var had := On(rec.minutes, DayOf(now));
            var whole := Whole(rec, up);
            Up(Added(rec, now, up).minutes, first) ==
            if whole > 0 && first <= DayOf(now) then Up(rec.minutes, first) - had + Counted(had, whole)
            else Up(rec.minutes, first)
  {
    var had := On(rec.minutes, DayOf(now));
    var whole := Whole(rec, up);
    var minutes := if whole > 0 then rec.minutes[DayOf(now) := Counted(had, whole)] else rec.minutes;
    UpPut(rec.minutes, DayOf(now), Counted(had, whole), first);
    UpWithin(minutes, WindowStart(now), first);
  }

  // ----- a clock that never goes backward cannot be credited twice -----

  /**
   * The minutes from any day on, and the carry, stay below the time since that day began (or
   * since the history did) by the time `last`, plus three minutes.
   */
  ghost predicate Sound(rec: Record, last: int) {
    && rec.carry < MINUTE
    && rec.since <= last
    && (forall day | day in rec.minutes :: day <= DayOf(last) && rec.minutes[day] <= DAY_MINUTES)
    && (forall first | first <= DayOf(last) :: Bounded(rec, last, first))
  }

  ghost predicate Bounded(rec: Record, last: int, first: int) {
    MINUTE * Up(rec.minutes, first) + rec.carry < last - Max(Midnight(first), rec.since) + 3 * MINUTE
  }

  lemma FreshIsSound(now: int)
    ensures Sound(Fresh(now), now)
  {
    forall first | first <= DayOf(now) ensures Bounded(Fresh(now), now, first) {
      UpBeyond(map[], first);
    }
  }

  lemma SoundLater(rec: Record, last: int, now: int)
    requires Sound(rec, last) && last <= now
    ensures Sound(rec, now)
  {
    forall first | first <= DayOf(now) ensures Bounded(rec, now, first) {
      if first <= DayOf(last) {
        assert Bounded(rec, last, first);
      } else {
        UpBeyond(rec.minutes, first);
      }
    }
  }

  lemma ReloadedIsSound(rec: Record, last: int)
    requires Sound(rec, last)
    ensures Sound(Reloaded(rec), last)
  {
    forall first | first <= DayOf(last) ensures Bounded(Reloaded(rec), last, first) {
      assert Bounded(rec, last, first);
    }
  }

  lemma WholeMinutes(rec: Record, up: nat)
    requires rec.carry < MINUTE && up <= 2 * TICK
    ensures Added(rec, 0, up).carry == rec.carry + up - MINUTE * Whole(rec, up) < MINUTE
    ensures Whole(rec, up) <= 2
  {
  }

  lemma AddKeepsSound(rec: Record, last: int, now: int, up: nat)
    requires Sound(rec, last) && last <= now
    requires up <= now - last && up <= 2 * TICK
    ensures Sound(Added(rec, now, up), now)
  {
    hide Up;
    WholeMinutes(rec, up);
    var after := Added(rec, now, up);
    var had := On(rec.minutes, DayOf(now));
    var whole := Whole(rec, up);
    forall first | first <= DayOf(now) ensures Bounded(after, now, first) {
      var kept := Max(WindowStart(now), first);
      UpWithin(after.minutes, WindowStart(now), first);
      assert Within(after.minutes, WindowStart(now)) == after.minutes;
      UpAfterAdding(rec, now, up, kept);
      UpWithin(rec.minutes, kept, first);
      assert Max(kept, first) == kept;
      assert Up(after.minutes, first) <= Up(rec.minutes, first) + whole;
      if first <= DayOf(last) {
        assert Bounded(rec, last, first);
      } else {
        UpBeyond(rec.minutes, first);
      }
    }
  }

  // ----- runs, with restarts -----

  /**
   * A process starting at `at` with its first reading, or a tick. The history on disk may be
   * unreadable, and then starts over; a tick's record may fail to be saved.
   */
  datatype Event = Start(readable: bool, at: int, first: Reading) | Tick(now: Reading, saved: bool)

  datatype State = State(rec: Record, disk: Option<Record>, last: Reading)

  function Booted(disk: Option<Record>, e: Event): State
    requires e.Start?
  {
    State(if e.readable && disk.Some? then Reloaded(disk.value) else Fresh(e.at), disk, e.first)
  }

  function After(events: seq<Event>): State
    requires events != [] && events[0].Start?
  {
    var e := events[|events| - 1];
    if |events| == 1 then Booted(None, e)
    else
      var before := After(events[..|events| - 1]);
      if e.Start? then Booted(before.disk, e)
      else
        var rec := Ticked(before.rec, before.last, e.now);
        State(rec, if e.saved then Some(rec) else before.disk, e.now)
  }

  ghost predicate Saves(e: Event) {
    e.Tick? && e.saved
  }

  /** The `i`-th event is the last tick whose record was saved. */
  ghost predicate LastSaved(events: seq<Event>, i: nat) {
    i < |events| && Saves(events[i]) && forall j | i < j < |events| :: !Saves(events[j])
  }

  lemma {:induction false} OnDisk(events: seq<Event>)
    requires events != [] && events[0].Start?
    ensures (forall e | e in events :: !Saves(e)) ==> After(events).disk.None?
    ensures forall i: nat | LastSaved(events, i) :: After(events).disk == Some(After(events[..i + 1]).rec)
  {
    hide Ticked;
    if |events| > 1 {
      var front, e := events[..|events| - 1], events[|events| - 1];
      OnDisk(front);
      assert events == front + [e];
      assert e in events && forall x | x in front :: x in events;
      forall i: nat | LastSaved(events, i) ensures After(events).disk == Some(After(events[..i + 1]).rec) {
        if i < |front| {
          assert front[..i + 1] == events[..i + 1] && LastSaved(front, i);
          assert events[|front|] == e;
        } else {
          assert events[..i + 1] == events;
        }
      }
    }
  }

  /**
   * A process that starts takes up the record of the last tick that was saved, but for the
   * remainder under a minute, however many starts came between; with nothing saved, or nothing
   * readable, it begins a history of its own.
   */
  lemma ARestartTakesUpWhatWasSaved(events: seq<Event>, e: Event)
    requires events != [] && events[0].Start? && e.Start?
    ensures forall i: nat | LastSaved(events, i) && e.readable ::
              After(events + [e]).rec == Record(After(events[..i + 1]).rec.since, After(events[..i + 1]).rec.minutes, 0)
    ensures !e.readable || (forall x | x in events :: !Saves(x)) ==> After(events + [e]).rec == Record(e.at, map[], 0)
  {
    OnDisk(events);
    assert (events + [e])[..|events|] == events;
  }

  /** When the wall clock is first and last read in an event. */
  function Begin(e: Event): int { if e.Start? then e.at else e.now.wall }

  function End(e: Event): int { if e.Start? then e.first.wall else e.now.wall }

  ghost predicate NeverBackward(events: seq<Event>) {
    && (forall e | e in events :: Begin(e) <= End(e))
    && (forall i, j | 0 <= i < j < |events| :: End(events[i]) <= Begin(events[j]))
  }

  ghost predicate SoundState(s: State) {
    Sound(s.rec, s.last.wall) && (s.disk.Some? ==> Sound(s.disk.value, s.last.wall))
  }

  lemma {:induction false} RunsAreSound(events: seq<Event>)
    requires events != [] && events[0].Start? && NeverBackward(events)
    ensures SoundState(After(events)) && After(events).last.wall == End(events[|events| - 1])
  {
    hide Sound, Ticked;
    var e := events[|events| - 1];
    assert e in events;
    if |events| > 1 {
      var front := events[..|events| - 1];
      assert forall x | x in front :: x in events;
      RunsAreSound(front);
      var before := After(front);
      assert front[|front| - 1] == events[|events| - 2];
      var last := before.last.wall;
      if before.disk.Some? {
        SoundLater(before.disk.value, last, End(e));
        ReloadedIsSound(before.disk.value, End(e));
      }
      if e.Tick? {
        TickKeepsSound(before.rec, before.last, e.now);
      }
    }
    if e.Start? {
      FreshIsSound(e.at);
      SoundLater(Fresh(e.at), e.at, e.first.wall);
    }
  }

  lemma TickKeepsSound(rec: Record, last: Reading, now: Reading)
    requires Sound(rec, last.wall) && last.wall <= now.wall
    ensures Sound(Ticked(rec, last, now), now.wall)
  {
    hide Sound, Added;
    AddKeepsSound(rec, last.wall, now.wall, CreditFor(last, now));
  }

  /**
   * Whatever the restarts, the lost saves, the sleeps and the monotonic clock, a wall clock
   * that never goes backward leaves fewer minutes in the window than its span and three more.
   */
  lemma NeverOvercounts(events: seq<Event>, now: int)
    requires events != [] && events[0].Start? && NeverBackward(events)
    requires End(events[|events| - 1]) <= now
    ensures var rec := After(events).rec;
            && MINUTE * Up(rec.minutes, WindowStart(now)) < (now - WindowFrom(rec, now)) + 3 * MINUTE
            && rec.carry < MINUTE
            && forall day | day in rec.minutes :: rec.minutes[day] <= DAY_MINUTES
  {
    RunsAreSound(events);
    var s := After(events);
    SoundLater(s.rec, s.last.wall, now);
    assert Bounded(s.rec, now, WindowStart(now));
  }

  // ----- nothing credited is lost, and nothing is credited that was not there -----

  function Credited(first: Reading, readings: seq<Reading>): nat {
    if readings == [] then 0
    else
      var front := readings[..|readings| - 1];
      Credited(first, front) + CreditFor(LastOf(first, front), readings[|readings| - 1])
  }

  /** Whole minutes credited in a run: on one day, or on any. */
  function Wholes(rec: Record, first: Reading, readings: seq<Reading>, day: Option<int>): nat {
    if readings == [] then 0
    else
      var front := readings[..|readings| - 1];
      var now := readings[|readings| - 1];
      Wholes(rec, first, front, day)
      + if day.None? || day.value == DayOf(now.wall)
        then Whole(Ran(rec, first, front), CreditFor(LastOf(first, front), now)) else 0
  }

  lemma {:induction false} CreditIsConserved(rec: Record, first: Reading, readings: seq<Reading>)
    requires rec.carry < MINUTE
    ensures rec.carry + Credited(first, readings) ==
        MINUTE * Wholes(rec, first, readings, None) + Ran(rec, first, readings).carry
    ensures Ran(rec, first, readings).carry < MINUTE
  {
    if readings != [] {
      CreditIsConserved(rec, first, readings[..|readings| - 1]);
    }
  }

  ghost predicate BothForward(first: Reading, readings: seq<Reading>) {
    var all := [first] + readings;
    forall i, j | 0 <= i < j < |all| :: all[i].mono <= all[j].mono && all[i].wall <= all[j].wall
  }

  lemma ForwardFront(first: Reading, readings: seq<Reading>)
    requires readings != [] && BothForward(first, readings)
    ensures var front := readings[..|readings| - 1];
            && BothForward(first, front)
            && LastOf(first, front).mono <= LastOf(first, readings).mono
            && LastOf(first, front).wall <= LastOf(first, readings).wall
  {
    var all, front := [first] + readings, [first] + readings[..|readings| - 1];
    assert forall i | 0 <= i < |front| :: front[i] == all[i];
    assert LastOf(first, readings[..|readings| - 1]) == all[|all| - 2];
    assert LastOf(first, readings) == all[|all| - 1];
  }

  /** Time credited is time both clocks saw pass, and at most two ticks' worth a tick. */
  lemma {:induction false} CreditIsRealTime(first: Reading, readings: seq<Reading>)
    requires BothForward(first, readings)
    ensures Credited(first, readings) <= LastOf(first, readings).mono - first.mono
    ensures Credited(first, readings) <= LastOf(first, readings).wall - first.wall
    ensures Credited(first, readings) <= 2 * TICK * |readings|
  {
    if readings != [] {
      ForwardFront(first, readings);
      CreditIsRealTime(first, readings[..|readings| - 1]);
    }
  }

  /** What one credit does to each day. */
  lemma DayAfterAdding(rec: Record, now: int, up: nat, day: int)
    requires rec.carry < MINUTE && up <= 2 * TICK
    requires On(rec.minutes, day) <= DAY_MINUTES
    ensures var minutes := Added(rec, now, up).minutes;
            if day < WindowStart(now) then day !in minutes
            else
              var more := if day == DayOf(now) then Whole(rec, up) else 0;
              On(minutes, day) == Min(DAY_MINUTES, On(rec.minutes, day) + more)
  {
    WholeMinutes(rec, up);
  }

  /** A day in the window holds exactly the minutes credited on it, up to a day's worth; a day out of it is gone. */
  lemma {:induction false} DaysHoldTheirCredit(rec: Record, first: Reading, readings: seq<Reading>, day: int)
    requires BothForward(first, readings)
    requires rec.carry < MINUTE && On(rec.minutes, day) <= DAY_MINUTES
    ensures var after := Ran(rec, first, readings);
            if readings == [] || day >= WindowStart(LastOf(first, readings).wall)
            then On(after.minutes, day) ==
                Min(DAY_MINUTES, On(rec.minutes, day) + Wholes(rec, first, readings, Some(day)))
            else day !in after.minutes
  {
    hide Added, BothForward, Whole, CreditFor;
    if readings != [] {
      var front := readings[..|readings| - 1];
      var last, now := LastOf(first, front), LastOf(first, readings);
      ForwardFront(first, readings);
      CreditIsConserved(rec, first, front);
      DaysHoldTheirCredit(rec, first, front, day);
      DayAfterAdding(Ran(rec, first, front), now.wall, CreditFor(last, now), day);
    }
  }

  // ----- a host that is always up -----

  /** Both clocks advance by exactly a minute from tick to tick. */
  ghost predicate EveryMinute(first: Reading, readings: seq<Reading>) {
    forall i | 0 <= i < |readings| ::
      readings[i] == Reading(first.mono + (i + 1) * MINUTE, first.wall + (i + 1) * MINUTE)
  }

  /** How many of the `n` ticks after `start` come at `midnight` or later. */
  function TicksSince(start: int, n: nat, midnight: int): nat {
    if start + MINUTE >= midnight then n
    else if start + n * MINUTE < midnight then 0
    else (start + n * MINUTE - midnight) / MINUTE + 1
  }

  lemma OneMoreTick(start: int, n: nat, midnight: int)
    ensures TicksSince(start, n + 1, midnight) ==
        TicksSince(start, n, midnight) + if start + (n + 1) * MINUTE >= midnight then 1 else 0
    ensures start + (n + 1) * MINUTE < midnight + DAY ==> TicksSince(start, n, midnight) < DAY_MINUTES
  {
  }

  lemma UpToday(minutes: map<int, nat>, day: int)
    requires forall d | d in minutes :: d <= day
    ensures Up(minutes, day) == On(minutes, day)
  {
    if day in minutes {
      assert Within(minutes, day) == map[day := minutes[day]];
      SumRemove(Within(minutes, day), day);
      assert Within(minutes, day) - {day} == map[];
    } else {
      assert Within(minutes, day) == map[];
    }
  }

  /** After `n` ticks every day in the window, and those after it together, hold a minute per tick. */
  ghost predicate CountsEveryTick(rec: Record, since: int, start: int, n: nat) {
    var now := start + n * MINUTE;
    && rec.since == since && rec.carry == 0
    && (forall day | day in rec.minutes :: day <= DayOf(now))
    && (forall first | first >= WindowStart(now) :: Up(rec.minutes, first) == TicksSince(start, n, Midnight(first)))
  }

  lemma OneMoreMinute(rec: Record, since: int, start: int, n: nat)
    requires CountsEveryTick(rec, since, start, n)
    ensures CountsEveryTick(Added(rec, start + (n + 1) * MINUTE, MINUTE), since, start, n + 1)
  {
    hide Up;
    var now := start + (n + 1) * MINUTE;
    var after := Added(rec, now, MINUTE);
    var today := DayOf(now);
    assert Whole(rec, MINUTE) == 1;
    UpToday(rec.minutes, today);
    OneMoreTick(start, n, Midnight(today));
    assert On(rec.minutes, today) < DAY_MINUTES;
    forall first | first >= WindowStart(now)
      ensures Up(after.minutes, first) == TicksSince(start, n + 1, Midnight(first))
    {
      UpAfterAdding(rec, now, MINUTE, first);
      OneMoreTick(start, n, Midnight(first));
      assert Up(rec.minutes, first) == TicksSince(start, n, Midnight(first));
    }
  }

  lemma NoTicks(since: int, start: int)
    requires since <= start
    ensures CountsEveryTick(Fresh(since), since, start, 0)
  {
    forall day ensures Up(map[], day) == 0 {
      UpBeyond(map[], day);
    }
  }

  lemma {:induction false} EveryTickCounts(since: int, first: Reading, readings: seq<Reading>)
    requires since <= first.wall && EveryMinute(first, readings)
    ensures CountsEveryTick(Ran(Fresh(since), first, readings), since, first.wall, |readings|)
  {
    hide Added, CountsEveryTick, Up;
    if readings == [] {
      NoTicks(since, first.wall);
    } else {
      var n := |readings| - 1;
      var front := readings[..n];
      EveryTickCounts(since, first, front);
      OneMoreMinute(Ran(Fresh(since), first, front), since, first.wall, n);
      assert CreditFor(LastOf(first, front), readings[n]) == MINUTE;
      assert readings[n].wall == first.wall + (n + 1) * MINUTE;
    }
  }

  /**
   * A host that is always up, and ticks once a minute: whatever the instant it started at, its
   * share is all of the window at every tick with an hour of history; so no tier for an hour,
   * tier 2 until it has a week of history, and tier 3 ever after.
   */
  lemma AlwaysUpReachesTheTopTier(since: int, first: Reading, readings: seq<Reading>)
    requires since <= first.wall < since + MINUTE && EveryMinute(first, readings)
    ensures var rec, now := Ran(Fresh(since), first, readings), LastOf(first, readings).wall;
            var minutes := (now - WindowFrom(rec, now)) / MINUTE;
            if now - since < HOUR then ShareAt(rec, now) == None
            else minutes >= 60 && ShareAt(rec, now) == Some(Share(minutes, minutes))
    ensures var now := LastOf(first, readings).wall;
            TierAt(Ran(Fresh(since), first, readings), now) ==
            if now - since < HOUR then None
            else if now - since < WINDOW_DAYS * DAY then Some(2)
            else Some(3)
  {
    hide Up, Ran;
    EveryTickCounts(since, first, readings);
    var rec := Ran(Fresh(since), first, readings);
    var n := |readings|;
    var now := LastOf(first, readings).wall;
    assert now == first.wall + n * MINUTE;
    var start := WindowStart(now);
    assert Up(rec.minutes, start) == TicksSince(first.wall, n, Midnight(start));
    assert TicksSince(first.wall, n, Midnight(start)) >= (now - WindowFrom(rec, now)) / MINUTE;
  }
}
