/** The embedding worker against a world that decides clocks, loads and replies. */
module EmbedWorker {
  import opened Wrappers
  import HelloProtocol

  const BATCH: nat := 32
  const IMAGE_BATCH: nat := 1

  type Model = nat

  type Vector = seq<real>

  datatype Error =
    | NotLoaded(message: string)
    | Refused(message: string)
    | Panicked(message: string)
    | WrongCount(got: nat, expected: nat)

  /** What a call of the loader comes to; a panic counts as a failure. */
  datatype Load = Loaded(model: Model) | Failed(message: string)

  /** What a call of the model comes to. */
  datatype Reply = Vectors(vectors: seq<Vector>) | Declined(message: string) | Panic(message: string)

  /** Texts or encoded images to embed. */
  datatype Job = Job(images: bool, items: seq<string>)

  function BatchOf(images: bool): (n: nat)
    ensures n > 0
  {
    if images then IMAGE_BATCH else BATCH
  }

  /**
   * Everything the worker does not decide: how long it backs off after a failed load, the
   * successive readings of the clock, the outcomes of the successive loads, and those of the
   * successive calls of a model.
   */
  datatype World = World(backoff: nat, clock: nat -> int, loads: nat -> Load,
      calls: (nat, Model, bool, seq<string>) -> Reply)

  datatype Failure = Failure(at: int, message: string)

  /** One call of the loader: when it began, when its failure was noted, and what it came to. */
  datatype Attempt = Attempt(at: int, ended: int, load: Load)

  /** The worker, and how far it has got in the world: clock readings, calls of a model, calls of the loader. */
  datatype State = State(model: Option<Model>, failure: Option<Failure>, loaded: bool, looks: nat, calls: nat,
      attempts: seq<Attempt>)

  const INITIAL := State(None, None, false, 0, 0, [])

  /** The worker fails fast: a load failed less than the backoff before the next reading. */
  predicate BacksOff(w: World, s: State) {
    s.failure.Some? && HelloProtocol.Elapsed(s.failure.value.at, w.clock(s.looks)) < w.backoff
  }

  function Ensured(w: World, s: State): (r: (State, Result<Model, Error>))
    ensures r.1.Ok? <==> r.0.model.Some?
    ensures r.1.Ok? ==> r.1.value == r.0.model.value
  {
    if s.model.Some? then (s, Ok(s.model.value))
    else
      var looked := if s.failure.Some? then s.looks + 1 else s.looks;
      if BacksOff(w, s) then (s.(looks := looked), Err(NotLoaded(s.failure.value.message)))
      else
        var started := w.clock(looked);
        match w.loads(|s.attempts|)
        case Loaded(model) =>
          (State(Some(model), None, true, looked + 1, s.calls, s.attempts + [Attempt(started, started, Loaded(model))]),
              Ok(model))
        case Failed(message) =>
          var at := w.clock(looked + 1);
          (State(None, Some(Failure(at, message)), s.loaded, looked + 2, s.calls,
              s.attempts + [Attempt(started, at, Failed(message))]),
           Err(NotLoaded(message)))
  }

  /** One batch: the state it leaves, and its vectors or what went wrong. */
  function Called(w: World, s: State, images: bool, chunk: seq<string>): (r: (State, Result<seq<Vector>, Error>))
    ensures r.1.Ok? ==> |r.1.value| == |chunk|
  {
    var (ready, model) := Ensured(w, s);
    if model.Err? then (ready, Err(model.error))
    else
      var called := ready.(calls := ready.calls + 1);
      match w.calls(ready.calls, model.value, images, chunk)
      case Panic(message) => (called.(model := None, loaded := false), Err(Panicked(message)))
      case Declined(message) => (called, Err(Refused(message)))
      case Vectors(vectors) => if |vectors| != |chunk| then (called, Err(WrongCount(|vectors|, |chunk|)))
        else (called, Ok(vectors))
  }

  /** The first batch of what is left to embed. */
  function Chunk(images: bool, items: seq<string>): (r: seq<string>)
    ensures items != [] ==> r != []
    ensures |r| <= |items| && r == items[..|r|]
    ensures |r| <= BatchOf(images)
  {
    if |items| <= BatchOf(images) then items else items[..BatchOf(images)]
  }

  /** Batch after batch, up to the first that fails. */
  function Served(w: World, s: State, images: bool, items: seq<string>): (State, Result<seq<Vector>, Error>)
    decreases |items|
  {
    if items == [] then (s, Ok([]))
    else
      var chunk := Chunk(images, items);
      var (next, vectors) := Called(w, s, images, chunk);
      if vectors.Err? then (next, vectors)
      else
        var (last, rest) := Served(w, next, images, items[|chunk|..]);
        (last, if rest.Err? then rest else Ok(vectors.value + rest.value))
  }

  function Unloaded(s: State): State {
    if s.model.Some? then s.(model := None, loaded := false) else s
  }

  class Worker {
    const w: World
    var model: Option<Model>
    var lastFailure: Option<Failure>
    var loaded: bool
    /** How far this worker has got in the world. */
    var looks: nat
    var calls: nat
    var attempts: seq<Attempt>

    function Value(): State
      reads this
    {
      State(model, lastFailure, loaded, looks, calls, attempts)
    }

    constructor (w: World)
      ensures this.w == w && Value() == INITIAL
    {
      this.w := w;
      model, lastFailure, loaded := None, None, false;
      looks, calls, attempts := 0, 0, [];
    }

    method Now() returns (now: int)
      modifies this`looks
      ensures now == w.clock(old(looks)) && looks == old(looks) + 1
    {
      now := w.clock(looks);
      looks := looks + 1;
    }

    method EnsureLoaded() returns (r: Result<Model, Error>)
      modifies this
      ensures (Value(), r) == Ensured(w, old(Value()))
    {
      if model.None? {
        if lastFailure.Some? {
          var now := Now();
          if HelloProtocol.Elapsed(lastFailure.value.at, now) < w.backoff {
            return Err(NotLoaded(lastFailure.value.message));
          }
        }
        var started := Now();
        var load := w.loads(|attempts|);
        match load
        case Loaded(m) =>
          attempts := attempts + [Attempt(started, started, load)];
          lastFailure := None;
          model := Some(m);
          loaded := true;
        case Failed(message) =>
          var at := Now();
          attempts := attempts + [Attempt(started, at, load)];
          lastFailure := Some(Failure(at, message));
          return Err(NotLoaded(message));
      }
      r := Ok(model.value);
    }

    method Call(images: bool, chunk: seq<string>) returns (r: Result<seq<Vector>, Error>)
      modifies this
      ensures (Value(), r) == Called(w, old(Value()), images, chunk)
    {
      var ready := EnsureLoaded();
      if ready.Err? {
        return Err(ready.error);
      }
      var reply := w.calls(calls, ready.value, images, chunk);
      calls := calls + 1;
      match reply
      case Panic(message) =>
        model := None;
        loaded := false;
        return Err(Panicked(message));
      case Declined(message) =>
        return Err(Refused(message));
      case Vectors(vectors) =>
        if |vectors| != |chunk| {
          return Err(WrongCount(|vectors|, |chunk|));
        }
        return Ok(vectors);
    }

    method Serve(job: Job) returns (r: Result<seq<Vector>, Error>)
      modifies this
      ensures (Value(), r) == Served(w, old(Value()), job.images, job.items)
    {
      hide Called;
      var out: seq<Vector> := [];
      var left := job.items;
      ghost var whole := Served(w, Value(), job.images, job.items);
      assert whole.1.Ok? ==> [] + whole.1.value == whole.1.value;
      while left != []
        invariant var rest := Served(w, Value(), job.images, left);
                  Served(w, old(Value()), job.images, job.items)
                  == (rest.0, if rest.1.Err? then rest.1 else Ok(out + rest.1.value))
        decreases |left|
      {
        var chunk := Chunk(job.images, left);
        ghost var before := Value();
        var vectors := Call(job.images, chunk);
        if vectors.Err? {
          return vectors;
        }
        ghost var rest := Served(w, Value(), job.images, left[|chunk|..]);
        assert rest.1.Ok? ==> out + (vectors.value + rest.1.value) == out + vectors.value + rest.1.value;
        out := out + vectors.value;
        left := left[|chunk|..];
      }
      assert out + [] == out;
      r := Ok(out);
    }

    /** Nobody has asked for a while. */
    method Idle()
      modifies this
      ensures Value() == Unloaded(old(Value()))
      ensures model.None? && (old(model).Some? ==> !loaded)
      ensures lastFailure == old(lastFailure) && looks == old(looks) && calls == old(calls)
      ensures attempts == old(attempts)
    {
      if model.Some? {
        model := None;
        loaded := false;
      }
    }
  }

  // ----- every run -----

  datatype Event = Request(job: Job) | Timeout

  function After(w: World, events: seq<Event>): State {
    if events == [] then INITIAL
    else
      var s := After(w, events[..|events| - 1]);
      match events[|events| - 1]
      case Request(job) => Served(w, s, job.images, job.items).0
      case Timeout => Unloaded(s)
  }

  ghost predicate ClockForward(w: World) {
    forall i: nat, j: nat | i <= j :: w.clock(i) <= w.clock(j)
  }

  /** The flag says whether the model is there; with a model, no failure is remembered. */
  ghost predicate Sound(s: State) {
    s.loaded == s.model.Some? && (s.model.Some? ==> s.failure.None?)
  }

  /** A failed load is the last one and is remembered, or it ended a whole backoff ago. */
  ghost predicate BackedOff(w: World, s: State, i: nat)
    requires i < |s.attempts|
  {
    s.attempts[i].load.Failed? ==>
      || (i == |s.attempts| - 1 && s.failure.Some? && s.failure.value.at == s.attempts[i].ended <= w.clock(s.looks))
      || w.clock(s.looks) >= s.attempts[i].ended + w.backoff
  }

  /** No load begins within the backoff of a failed one. */
  ghost predicate Spaced(w: World, attempts: seq<Attempt>) {
    forall i, j | 0 <= i < j < |attempts| && attempts[i].load.Failed? :: attempts[j].at >= attempts[i].ended + w.backoff
  }

  ghost predicate Kept(w: World, s: State) {
    Sound(s) && Spaced(w, s.attempts) && forall i | 0 <= i < |s.attempts| :: BackedOff(w, s, i)
  }

  lemma EnsuringKeeps(w: World, s: State)
    requires ClockForward(w) && Kept(w, s)
    ensures Kept(w, Ensured(w, s).0)
  {
    var after := Ensured(w, s).0;
    var n := |s.attempts|;
    var looked := if s.failure.Some? then s.looks + 1 else s.looks;
    assert w.clock(s.looks) <= w.clock(looked) <= w.clock(looked + 1) <= w.clock(looked + 2);
    forall i | 0 <= i < |after.attempts| ensures BackedOff(w, after, i) {
      if i < n {
        assert after.attempts[i] == s.attempts[i];
        assert BackedOff(w, s, i);
      }
    }
    forall i, j | 0 <= i < j < |after.attempts| && after.attempts[i].load.Failed?
      ensures after.attempts[j].at >= after.attempts[i].ended + w.backoff
    {
      assert BackedOff(w, s, i);
    }
  }

  lemma CallingKeeps(w: World, s: State, images: bool, chunk: seq<string>)
    requires ClockForward(w) && Kept(w, s)
    ensures Kept(w, Called(w, s, images, chunk).0)
  {
    hide Ensured, ClockForward;
    EnsuringKeeps(w, s);
    var ready := Ensured(w, s).0;
    var after := Called(w, s, images, chunk).0;
    forall i | 0 <= i < |after.attempts| ensures BackedOff(w, after, i) {
      assert BackedOff(w, ready, i);
    }
  }

  lemma {:induction false} ServingKeeps(w: World, s: State, images: bool, items: seq<string>)
    requires ClockForward(w) && Kept(w, s)
    ensures Kept(w, Served(w, s, images, items).0)
    decreases |items|
  {
    hide Called, Kept, ClockForward;
    if items != [] {
      var chunk := Chunk(images, items);
      CallingKeeps(w, s, images, chunk);
      if Called(w, s, images, chunk).1.Ok? {
        ServingKeeps(w, Called(w, s, images, chunk).0, images, items[|chunk|..]);
      }
    }
  }

  lemma {:induction false} RunsKeep(w: World, events: seq<Event>)
    requires ClockForward(w)
    ensures Kept(w, After(w, events))
  {
    hide Served, ClockForward;
    if events != [] {
      RunsKeep(w, events[..|events| - 1]);
      var s := After(w, events[..|events| - 1]);
      match events[|events| - 1]
      case Request(job) => ServingKeeps(w, s, job.images, job.items);
      case Timeout =>
        forall i | 0 <= i < |s.attempts| ensures BackedOff(w, Unloaded(s), i) {
          assert BackedOff(w, s, i);
        }
    }
  }

  /**
   * Over any requests, idle timeouts, panics and failed loads: the flag says whether the model is
   * there, a model that is there has no failure remembered, and the loader is left alone for the
   * whole backoff after every failure.
   */
  lemma TheFlagAndTheBackoff(w: World, events: seq<Event>)
    requires ClockForward(w)
    ensures var s := After(w, events);
            && s.loaded == s.model.Some?
            && (s.model.Some? ==> s.failure.None?)
            && forall i, j | 0 <= i < j < |s.attempts| && s.attempts[i].load.Failed? ::
              s.attempts[j].at >= s.attempts[i].ended + w.backoff
  {
    RunsKeep(w, events);
  }

  /**
   * After a timeout no model is there, whatever the run was, and the flag says so; nothing else is
   * forgotten or touched. So the next request for something, unless a failed load is still being
   * waited out, goes to the loader again.
   */
  lemma ATimeoutUnloads(w: World, events: seq<Event>, job: Job)
    requires ClockForward(w)
    ensures var before, s := After(w, events), After(w, events + [Timeout]);
            && s.model.None? && !s.loaded
            && s.failure == before.failure && s.looks == before.looks && s.calls == before.calls
            && s.attempts == before.attempts
    ensures var s := After(w, events + [Timeout]);
            job.items != [] && (s.failure.Some? ==>
                HelloProtocol.Elapsed(s.failure.value.at, w.clock(s.looks)) >= w.backoff) ==>
              var next := After(w, events + [Timeout, Request(job)]);
              && |next.attempts| > |s.attempts|
              && next.attempts[..|s.attempts|] == s.attempts
              && next.attempts[|s.attempts|].load == w.loads(|s.attempts|)
  {
    hide Served;
    var before, s := After(w, events), After(w, events + [Timeout]);
    assert (events + [Timeout])[..|events|] == events;
    assert (events + [Timeout, Request(job)])[..|events| + 1] == events + [Timeout];
    RunsKeep(w, events);
    if job.items != [] && !BacksOff(w, s) {
      LoadsAgain(w, s, job.images, job.items);
    }
  }

  lemma {:induction false} AttemptsStay(w: World, s: State, images: bool, items: seq<string>)
    ensures s.attempts <= Served(w, s, images, items).0.attempts
    decreases |items|
  {
    hide Ensured;
    if items != [] {
      var chunk := Chunk(images, items);
      EnsuringTries(w, s);
      if Called(w, s, images, chunk).1.Ok? {
        AttemptsStay(w, Called(w, s, images, chunk).0, images, items[|chunk|..]);
      }
    }
  }

  /**
   * The clock is read once to judge a backoff, once as a load begins and once more when it has
   * failed: an attempt is dated by the readings made for it, and a failure by the last of all.
   */
  lemma EnsuringTries(w: World, s: State)
    ensures s.attempts <= Ensured(w, s).0.attempts
    ensures s.model.None? && !BacksOff(w, s) ==>
              var after := Ensured(w, s).0;
              && |after.attempts| == |s.attempts| + 1
              && var tried, judged := after.attempts[|s.attempts|], if s.failure.Some? then 1 else 0;
                 && tried.load == w.loads(|s.attempts|)
                 && after.looks == s.looks + judged + (if tried.load.Failed? then 2 else 1)
                 && tried.at == w.clock(s.looks + judged) && tried.ended == w.clock(after.looks - 1)
                 && (tried.load.Failed? ==> after.failure == Some(Failure(tried.ended, tried.load.message)))
                 && (tried.load.Loaded? ==> after.failure.None?)
  {
  }

  lemma LoadsAgain(w: World, s: State, images: bool, items: seq<string>)
    requires items != [] && s.model.None? && !BacksOff(w, s)
    ensures var next := Served(w, s, images, items).0;
            && |next.attempts| > |s.attempts|
            && next.attempts[..|s.attempts|] == s.attempts
            && next.attempts[|s.attempts|].load == w.loads(|s.attempts|)
  {
    hide Ensured, BacksOff;
    var chunk := Chunk(images, items);
    var called := Called(w, s, images, chunk);
    EnsuringTries(w, s);
    if called.1.Ok? {
      AttemptsStay(w, called.0, images, items[|chunk|..]);
    }
  }

  /**
   * What a request leaves, after any run: no model after a panic, or when there is none to load;
   * the model after an answer that is refused or of the wrong length.
   */
  lemma WhatARequestLeaves(w: World, events: seq<Event>, job: Job)
    requires ClockForward(w) && job.items != []
    ensures var (after, r) := Served(w, After(w, events), job.images, job.items);
            var kept := r.Ok? || r.error.Refused? || r.error.WrongCount?;
            after.model.Some? == after.loaded == kept && (!kept ==> r.error.Panicked? || r.error.NotLoaded?)
  {
    RunsKeep(w, events);
    OneRequestLeaves(w, After(w, events), job.images, job.items);
  }

  lemma {:induction false} OneRequestLeaves(w: World, s: State, images: bool, items: seq<string>)
    requires Sound(s)
    ensures var (after, r) := Served(w, s, images, items);
            && (r.Ok? && items != [] ==> after.model.Some? && after.loaded)
            && (r.Err? && (r.error.Panicked? || r.error.NotLoaded?) ==> after.model.None? && !after.loaded)
            && (r.Err? && (r.error.Refused? || r.error.WrongCount?) ==> after.model.Some? && after.loaded)
    decreases |items|
  {
    if items != [] {
      var chunk := Chunk(images, items);
      var called := Called(w, s, images, chunk);
      if called.1.Ok? {
        OneRequestLeaves(w, called.0, images, items[|chunk|..]);
      }
    }
  }

  /** The last call got this reply for these inputs, and the error says what was wrong with it. */
  ghost predicate Explains(w: World, calls: nat, model: Model, images: bool, chunk: seq<string>, error: Error) {
    match w.calls(calls, model, images, chunk)
    case Panic(message) => error == Panicked(message)
    case Declined(message) => error == Refused(message)
    case Vectors(vectors) => |vectors| != |chunk| && error == WrongCount(|vectors|, |chunk|)
  }

  /**
   * A request that fails with a model there fails by its last call, which asked for a run of its
   * inputs, and says what came back.
   */
  lemma {:induction false} WhyARequestFails(w: World, s: State, images: bool, items: seq<string>)
    returns (model: Model, i: nat, j: nat)
    requires Served(w, s, images, items).1.Err? && !Served(w, s, images, items).1.error.NotLoaded?
    ensures var (after, r) := Served(w, s, images, items);
            i <= j <= |items| && after.calls > 0 && Explains(w, after.calls - 1, model, images, items[i..j], r.error)
    decreases |items|
  {
    hide Ensured, Explains, Called;
    var chunk := Chunk(images, items);
    var called := Called(w, s, images, chunk);
    if called.1.Ok? {
      var rest := items[|chunk|..];
      var m, x, y := WhyARequestFails(w, called.0, images, rest);
      model, i, j := m, x + |chunk|, y + |chunk|;
      assert rest[x..y] == items[i..j];
    } else {
      model := OneCallFails(w, s, images, chunk);
      i, j := 0, |chunk|;
      assert items[0..|chunk|] == chunk;
    }
  }

  lemma OneCallFails(w: World, s: State, images: bool, chunk: seq<string>) returns (model: Model)
    requires Called(w, s, images, chunk).1.Err? && !Called(w, s, images, chunk).1.error.NotLoaded?
    ensures var (after, r) := Called(w, s, images, chunk);
            after.calls > 0 && Explains(w, after.calls - 1, model, images, chunk, r.error)
  {
    model := Ensured(w, s).1.value;
  }

  /** One such request: the failure remembered is its answer, and only the clock is looked at. */
  lemma FailsFast(w: World, s: State, images: bool, items: seq<string>)
    requires s.model.None? && BacksOff(w, s) && items != []
    ensures var (after, r) := Served(w, s, images, items);
            r == Err(NotLoaded(s.failure.value.message)) && after == s.(looks := s.looks + 1)
  {
  }

  /** An empty request loads nothing and asks nothing. */
  lemma EmptyRequestsNeverLoad(w: World, s: State, images: bool)
    ensures Served(w, s, images, []) == (s, Ok([]))
  {
  }

  /** How many of the events are requests for something. */
  function Asked(events: seq<Event>): (n: nat)
    ensures n <= |events|
  {
    if events == [] then 0
    else
      var e := events[|events| - 1];
      Asked(events[..|events| - 1]) + if e.Request? && e.job.items != [] then 1 else 0
  }

  lemma TimesOut(s: State)
    requires s.model.None?
    ensures Unloaded(s) == s
  {
  }

  /**
   * While the clock stays within the backoff of a failed load, every request for something, however
   * many come and whatever timeouts come between, is refused with that failure's message, and
   * neither loader nor model is called.
   */
  lemma {:induction false} RefusedThroughoutTheBackoff(w: World, events: seq<Event>, more: seq<Event>)
    requires After(w, events).failure.Some? && After(w, events).model.None?
    requires var s := After(w, events);
             forall i: nat | s.looks <= i < s.looks + Asked(more) ::
               HelloProtocol.Elapsed(s.failure.value.at, w.clock(i)) < w.backoff
    ensures var s := After(w, events); After(w, events + more) == s.(looks := s.looks + Asked(more))
    ensures forall k | 0 <= k < |more| && more[k].Request? && more[k].job.items != [] ::
              Served(w, After(w, events + more[..k]), more[k].job.images, more[k].job.items).1
              == Err(NotLoaded(After(w, events).failure.value.message))
    decreases |more|
  {
    hide Served, Unloaded;
    var s := After(w, events);
    if more == [] {
      assert events + more == events;
    } else {
      var front, e := more[..|more| - 1], more[|more| - 1];
      RefusedThroughoutTheBackoff(w, events, front);
      assert (events + more)[..|events + more| - 1] == events + front;
      forall k | 0 <= k < |front| ensures front[k] == more[k] && front[..k] == more[..k] {}
      if e.Timeout? {
        TimesOut(After(w, events + front));
      } else if e.job.items == [] {
        EmptyRequestsNeverLoad(w, After(w, events + front), e.job.images);
      } else {
        FailsFast(w, After(w, events + front), e.job.images, e.job.items);
      }
    }
  }

  /** The run without its empty requests. */
  function NonEmpty(events: seq<Event>): seq<Event> {
    if events == [] then []
    else
      var front, e := NonEmpty(events[..|events| - 1]), events[|events| - 1];
      if e.Request? && e.job.items == [] then front else front + [e]
  }

  /** Empty requests never load, and leave no trace in any run. */
  lemma {:induction false} EmptyRequestsLeaveNoTrace(w: World, events: seq<Event>)
    ensures After(w, events) == After(w, NonEmpty(events))
  {
    hide Served;
    if events != [] {
      var front, e := events[..|events| - 1], events[|events| - 1];
      EmptyRequestsLeaveNoTrace(w, front);
      if e.Request? && e.job.items == [] {
        EmptyRequestsNeverLoad(w, After(w, front), e.job.images);
      } else {
        assert NonEmpty(events)[..|NonEmpty(events)| - 1] == NonEmpty(front);
      }
    }
  }

  // ----- what a request gives -----

  /** Calls needed for so many inputs. */
  function Batches(images: bool, n: nat): nat {
    if images then (n + IMAGE_BATCH - 1) / IMAGE_BATCH else (n + BATCH - 1) / BATCH
  }

  /** Wherever a model gives a vector for each input, they are `f` of the inputs, in order. */
  ghost predicate Faithful(w: World, f: (bool, string) -> Vector) {
    forall c, m, images, chunk | w.calls(c, m, images, chunk).Vectors?
        && |w.calls(c, m, images, chunk).vectors| == |chunk| ::
      w.calls(c, m, images, chunk).vectors == Mapped(f, images, chunk)
  }

  function Mapped(f: (bool, string) -> Vector, images: bool, items: seq<string>): (r: seq<Vector>)
    ensures |r| == |items|
  {
    seq(|items|, i requires 0 <= i < |items| => f(images, items[i]))
  }

  /**
   * A request that succeeds has one vector for each input, in as few calls as the batch size
   * allows, and from a faithful model exactly the vectors each input has on its own.
   */
  lemma {:induction false} BatchedIsUnbatched(w: World, s: State, images: bool, items: seq<string>, f: (bool,
                                              string) -> Vector)
    requires Served(w, s, images, items).1.Ok?
    ensures var (after, r) := Served(w, s, images, items);
            && |r.value| == |items|
            && after.calls == s.calls + Batches(images, |items|)
            && (Faithful(w, f) ==> r.value == Mapped(f, images, items))
    decreases |items|
  {
    hide Faithful, Ensured, Called, Batches;
    if items == [] {
      OneMoreBatch(images, 0);
    } else {
      var chunk := Chunk(images, items);
      var (next, vectors) := Called(w, s, images, chunk);
      var rest := items[|chunk|..];
      BatchedIsUnbatched(w, next, images, rest, f);
      assert items == chunk + rest;
      OneCall(w, s, images, chunk, f);
      if Faithful(w, f) {
        assert vectors.value + Mapped(f, images, rest) == Mapped(f, images, items);
      }
      OneMoreBatch(images, |items|);
    }
  }

  /** So many inputs take a call for the first chunk, and as many as the rest takes. */
  lemma OneMoreBatch(images: bool, n: nat)
    ensures Batches(images, 0) == 0
    ensures n > 0 ==> Batches(images, n) == 1 + Batches(images, if n <= BatchOf(images) then 0 else n - BatchOf(images))
  {
  }

  lemma OneCall(w: World, s: State, images: bool, chunk: seq<string>, f: (bool, string) -> Vector)
    requires Called(w, s, images, chunk).1.Ok?
    ensures Called(w, s, images, chunk).0.calls == s.calls + 1
    ensures Faithful(w, f) ==> Called(w, s, images, chunk).1.value == Mapped(f, images, chunk)
  {
  }
}
