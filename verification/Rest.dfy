/** Cutting a list of inputs into requests, in order and under a size limit. */
module RequestGroups {
  const MAX_INPUT_CHARS := 4_000
  const MAX_REQUEST_CHARS := 100_000

  /** The inputs from `start` up to but not including `end`. */
  datatype Range = Range(start: nat, end: nat)

  function CapChars(text: string, max: nat): (r: string)
    ensures r <= text && |r| <= max
    ensures |text| <= max ==> r == text
    ensures |text| > max ==> |r| == max
  {
    if |text| > max then text[..max] else text
  }

  function Capped(texts: seq<string>): (r: seq<string>)
    ensures |r| == |texts|
    ensures forall i | 0 <= i < |r| :: r[i] == CapChars(texts[i], MAX_INPUT_CHARS)
  {
    seq(|texts|, i requires 0 <= i < |texts| => CapChars(texts[i], MAX_INPUT_CHARS))
  }

  /** The characters of inputs `start..end`. */
  function Chars(texts: seq<string>, start: nat, end: nat): nat
    requires start <= end <= |texts|
  {
    if start == end then 0 else Chars(texts, start, end - 1) + |texts[end - 1]|
  }

  lemma {:induction false} CharsSplit(texts: seq<string>, a: nat, b: nat, c: nat)
    requires a <= b <= c <= |texts|
    ensures Chars(texts, a, c) == Chars(texts, a, b) + Chars(texts, b, c)
    decreases c
  {
    if b < c {
      CharsSplit(texts, a, b, c - 1);
    }
  }

  /** A request the rule allows: not empty, and within the limit unless it is a single input. */
  ghost predicate Allowed(texts: seq<string>, g: Range) {
    && g.start < g.end <= |texts|
    && (g.end == g.start + 1 || Chars(texts, g.start, g.end) <= MAX_REQUEST_CHARS)
  }

  /** `groups` are allowed requests that cover the inputs from `start` on, in order and once each. */
  ghost predicate Covers(texts: seq<string>, start: nat, groups: seq<Range>)
    decreases |groups|
  {
    if groups == [] then start == |texts|
    else Allowed(texts, groups[0]) && groups[0].start == start && Covers(texts, groups[0].end, groups[1..])
  }

  /** Where the request starting at `start`, and holding the inputs before `i`, ends. */
  function End(texts: seq<string>, start: nat, i: nat): (end: nat)
    requires start <= i <= |texts|
    ensures i <= end <= |texts|
    ensures start < |texts| ==> start < end
    decreases |texts| - i
  {
    if i < |texts| && (i == start || Chars(texts, start, i) + |texts[i]| <= MAX_REQUEST_CHARS)
    then End(texts, start, i + 1) else i
  }

  /** Fill each request as far as it goes. */
  function Greedy(texts: seq<string>, start: nat): seq<Range>
    requires start <= |texts|
    decreases |texts| - start
  {
    if start == |texts| then []
    else [Range(start, End(texts, start, start))] + Greedy(texts, End(texts, start, start))
  }

  method GroupRequests(texts: seq<string>) returns (groups: seq<Range>)
    ensures groups == Greedy(texts, 0)
  {
    groups := [];
    var start, total := 0, 0;
    for i := 0 to |texts|
      invariant start <= i && (start == i ==> i == 0)
      invariant total == Chars(texts, start, i)
      invariant End(texts, start, start) == End(texts, start, i)
      invariant groups + Greedy(texts, start) == Greedy(texts, 0)
    {
      var len := |texts[i]|;
      if i > start && total + len > MAX_REQUEST_CHARS {
        groups := groups + [Range(start, i)];
        start := i;
        total := 0;
      }
      total := total + len;
      assert Chars(texts, start, i) + len == Chars(texts, start, i + 1);
    }
    if start < |texts| {
      assert Greedy(texts, |texts|) == [];
      groups := groups + [Range(start, |texts|)];
    }
  }

  lemma {:induction false} EndIsAllowed(texts: seq<string>, start: nat, i: nat)
    requires start <= i <= |texts| && start < |texts|
    requires i <= start + 1 || Chars(texts, start, i) <= MAX_REQUEST_CHARS
    ensures Allowed(texts, Range(start, End(texts, start, i)))
    decreases |texts| - i
  {
    if i < |texts| && (i == start || Chars(texts, start, i) + |texts[i]| <= MAX_REQUEST_CHARS) {
      EndIsAllowed(texts, start, i + 1);
    }
  }

  /** No allowed request that starts there reaches further. */
  lemma {:induction false} EndIsFurthest(texts: seq<string>, start: nat, i: nat, g: Range)
    requires start <= i <= |texts|
    requires Allowed(texts, g) && g.start <= start < g.end && i <= g.end
    ensures g.end <= End(texts, start, i)
    decreases |texts| - i
  {
    if i < g.end {
      CharsSplit(texts, g.start, start, g.end);
      CharsSplit(texts, start, i + 1, g.end);
      assert i == start || Chars(texts, start, i) + |texts[i]| <= MAX_REQUEST_CHARS;
      EndIsFurthest(texts, start, i + 1, g);
    }
  }

  /** The requests cover every input exactly once, in order, each within the limit or a single input. */
  lemma {:induction false} GreedyCovers(texts: seq<string>, start: nat)
    requires start <= |texts|
    ensures Covers(texts, start, Greedy(texts, start))
    decreases |texts| - start
  {
    if start < |texts| {
      EndIsAllowed(texts, start, start);
      GreedyCovers(texts, End(texts, start, start));
    }
  }

  /** No way of cutting the inputs under the same rule makes fewer requests. */
  lemma {:induction false} GreedyIsOptimal(texts: seq<string>, from: nat, start: nat, other: seq<Range>)
    requires from <= start <= |texts|
    requires Covers(texts, from, other)
    ensures |Greedy(texts, start)| <= |other|
    decreases |other|
  {
    if other != [] {
      if start < other[0].end {
        EndIsFurthest(texts, start, start, other[0]);
        GreedyIsOptimal(texts, other[0].end, End(texts, start, start), other[1..]);
      } else {
        GreedyIsOptimal(texts, other[0].end, start, other[1..]);
      }
    }
  }

  /** What `Covers` means, request by request. */
  lemma {:induction false} CoversMeans(texts: seq<string>, start: nat, groups: seq<Range>)
    requires Covers(texts, start, groups)
    ensures groups == [] ==> start == |texts|
    ensures groups != [] ==> groups[0].start == start && groups[|groups| - 1].end == |texts|
    ensures forall k | 0 <= k < |groups| :: Allowed(texts, groups[k])
    ensures forall k | 0 < k < |groups| :: groups[k - 1].end == groups[k].start
    decreases |groups|
  {
    if groups != [] {
      CoversMeans(texts, groups[0].end, groups[1..]);
      assert groups == [groups[0]] + groups[1..];
    }
  }

  /** Capped inputs never make a request over the limit. */
  lemma RequestsStayWithinTheLimit(texts: seq<string>, g: Range)
    requires g in Greedy(Capped(texts), 0)
    ensures g.start < g.end <= |texts| && Chars(Capped(texts), g.start, g.end) <= MAX_REQUEST_CHARS
  {
    hide Greedy, Covers;
    var capped := Capped(texts);
    GreedyCovers(capped, 0);
    CoversMeans(capped, 0, Greedy(capped, 0));
    assert Allowed(capped, g);
    assert Chars(capped, g.start, g.start + 1) == Chars(capped, g.start, g.start) + |capped[g.start]|;
  }
}

/** Embedding a list of texts through an HTTP endpoint that answers in any order. */
module Rest {
  import opened Wrappers
  import opened RequestGroups

  type Vector = seq<real>

  /** A JSON number says which unsigned integer it is, if it is one, and its value as a float. */
  datatype Json =
    | Null | Num(unsigned: Option<nat>, float: real) | Text(text: string)
    | Arr(items: seq<Json>) | Obj(fields: map<string, Json>)

  datatype Error =
    | Failed(reason: string)
    | NoData
    | WrongCount(got: nat, expected: nat)
    | NoIndex
    | OutOfRange(index: nat)
    | Twice(index: nat)
    | NotAnArray
    | NotANumber
    | TooShort(length: nat)

  function Field(j: Json, name: string): Json {
    if j.Obj? && name in j.fields then j.fields[name] else Null
  }

  function Numbers(items: seq<Json>): Result<Vector, Error> {
    if forall i | 0 <= i < |items| :: items[i].Num?
    then Ok(seq(|items|, i requires 0 <= i < |items| && items[i].Num? => items[i].float))
    else Err(NotANumber)
  }

  /** Put one embedding object in its slot. */
  function Place(out: seq<Option<Vector>>, item: Json): Result<seq<Option<Vector>>, Error> {
    var index := Field(item, "index");
    if !index.Num? || index.unsigned.None? then Err(NoIndex)
    else
      var i := index.unsigned.value;
      if i >= |out| then Err(OutOfRange(i))
      else if out[i].Some? then Err(Twice(i))
      else if !Field(item, "embedding").Arr? then Err(NotAnArray)
      else match Numbers(Field(item, "embedding").items)
        case Err(e) => Err(e)
        case Ok(v) => Ok(out[i := Some(v)])
  }

  function PlaceAll(data: seq<Json>, expected: nat): Result<seq<Option<Vector>>, Error> {
    if data == [] then Ok(seq(expected, _ => None))
    else match PlaceAll(data[..|data| - 1], expected)
      case Err(e) => Err(e)
      case Ok(out) => Place(out, data[|data| - 1])
  }

  function OrEmpty(slot: Option<Vector>): Vector {
    if slot.Some? then slot.value else []
  }

  function Parsed(response: Json, expected: nat): Result<seq<Vector>, Error> {
    var data := Field(response, "data");
    if !data.Arr? then Err(NoData)
    else if |data.items| != expected then Err(WrongCount(|data.items|, expected))
    else match PlaceAll(data.items, expected)
      case Err(e) => Err(e)
      case Ok(out) => Ok(seq(|out|, i requires 0 <= i < |out| => OrEmpty(out[i])))
  }

  method ParseResponse(response: Json, expected: nat) returns (r: Result<seq<Vector>, Error>)
    ensures r == Parsed(response, expected)
  {
    var data := Field(response, "data");
    if !data.Arr? {
      return Err(NoData);
    }
    var items := data.items;
    if |items| != expected {
      return Err(WrongCount(|items|, expected));
    }
    var out: seq<Option<Vector>> := seq(expected, _ => None);
    var k := 0;
    while k < |items|
      invariant k <= |items|
      invariant PlaceAll(items[..k], expected) == Ok(out)
    {
      assert items[..k + 1][..k] == items[..k];
      match Place(out, items[k])
      case Err(e) =>
        StopsAtTheFirstFault(items, k + 1, expected);
        return Err(e);
      case Ok(placed) =>
        out := placed;
        k := k + 1;
    }
    assert items[..k] == items;
    r := Ok(seq(|out|, i requires 0 <= i < |out| => OrEmpty(out[i])));
  }

  lemma {:induction false} StopsAtTheFirstFault(data: seq<Json>, k: nat, expected: nat)
    requires k <= |data| && PlaceAll(data[..k], expected).Err?
    ensures PlaceAll(data, expected) == PlaceAll(data[..k], expected)
    decreases |data|
  {
    if k == |data| {
      assert data[..k] == data;
    } else {
      assert data[..|data| - 1][..k] == data[..k];
      StopsAtTheFirstFault(data[..|data| - 1], k, expected);
    }
  }

  // ----- a response in any order is put back in order -----

  predicate IsEmbedding(item: Json) {
    && Field(item, "index").Num? && Field(item, "index").unsigned.Some?
    && Field(item, "embedding").Arr? && Numbers(Field(item, "embedding").items).Ok?
  }

  function IndexOf(item: Json): nat
    requires IsEmbedding(item)
  {
    Field(item, "index").unsigned.value
  }

  function VectorOf(item: Json): Vector
    requires IsEmbedding(item)
  {
    Numbers(Field(item, "embedding").items).value
  }

  /** One embedding object for each of `n` indices, in any order. */
  ghost predicate Complete(items: seq<Json>, n: nat) {
    && |items| == n
    && Distinct(items, n)
  }

  /** Embedding objects with distinct indices below `n`. */
  ghost predicate Distinct(items: seq<Json>, n: nat) {
    && (forall k | 0 <= k < |items| :: IsEmbedding(items[k]) && IndexOf(items[k]) < n)
    && (forall j, k | 0 <= j < k < |items| :: IndexOf(items[j]) != IndexOf(items[k]))
  }

  function Filled(out: seq<Option<Vector>>): set<nat> {
    set i: nat | i < |out| && out[i].Some?
  }

  ghost predicate Has(items: seq<Json>, i: nat) {
    exists k :: 0 <= k < |items| && IsEmbedding(items[k]) && IndexOf(items[k]) == i
  }

  /** The slots hold the embeddings of `items`, each at its index, and nothing else. */
  ghost predicate Holds(out: seq<Option<Vector>>, items: seq<Json>, n: nat) {
    && Distinct(items, n) && |out| == n && |Filled(out)| == |items|
    && (forall k | 0 <= k < |items| :: out[IndexOf(items[k])] == Some(VectorOf(items[k])))
    && (forall i | i in Filled(out) :: Has(items, i))
  }

  lemma PlaceMeans(out: seq<Option<Vector>>, item: Json)
    ensures Place(out, item).Ok? <==> IsEmbedding(item) && IndexOf(item) < |out| && out[IndexOf(item)].None?
    ensures Place(out, item).Ok? ==> Place(out, item).value == out[IndexOf(item) := Some(VectorOf(item))]
  {
    hide Numbers;
  }

  lemma DistinctMore(front: seq<Json>, item: Json, n: nat)
    requires Distinct(front, n)
    ensures Distinct(front + [item], n) <==> IsEmbedding(item) && IndexOf(item) < n && !Has(front, IndexOf(item))
  {
    hide IsEmbedding, IndexOf;
    var items := front + [item];
    assert items[|front|] == item;
    if IsEmbedding(item) && Has(front, IndexOf(item)) {
      var k :| 0 <= k < |front| && IsEmbedding(front[k]) && IndexOf(front[k]) == IndexOf(item);
      assert items[k] == front[k];
    }
    if IsEmbedding(item) && IndexOf(item) < n && !Has(front, IndexOf(item)) {
      forall j, k | 0 <= j < k < |items| ensures IndexOf(items[j]) != IndexOf(items[k]) {
        if k == |front| {
          assert items[j] == front[j];
        }
      }
    }
  }

  lemma HasMore(front: seq<Json>, item: Json, j: nat)
    ensures Has(front + [item], j) <==> Has(front, j) || (IsEmbedding(item) && IndexOf(item) == j)
  {
    hide IsEmbedding, IndexOf;
    var items := front + [item];
    assert items[|front|] == item;
    if Has(front, j) {
      var k :| 0 <= k < |front| && IsEmbedding(front[k]) && IndexOf(front[k]) == j;
      assert items[k] == front[k];
    }
  }

  /** The slots filled are the indices held. */
  lemma FilledIsHeld(out: seq<Option<Vector>>, items: seq<Json>, n: nat, i: nat)
    requires Holds(out, items, n)
    ensures i in Filled(out) <==> Has(items, i)
  {
    hide IsEmbedding, IndexOf, VectorOf;
  }

  lemma PlacedOneMore(front: seq<Json>, item: Json, before: seq<Option<Vector>>, n: nat)
    requires Holds(before, front, n)
    ensures Place(before, item).Ok? <==> Distinct(front + [item], n)
    ensures Place(before, item).Ok? ==> Holds(Place(before, item).value, front + [item], n)
  {
    hide Place, IsEmbedding, IndexOf, VectorOf, Has, Distinct;
    PlaceMeans(before, item);
    DistinctMore(front, item, n);
    if IsEmbedding(item) {
      var i := IndexOf(item);
      FilledIsHeld(before, front, n, i);
      if i < n && before[i].None? {
        var out := before[i := Some(VectorOf(item))];
        assert Filled(out) == Filled(before) + {i};
        HeldOneMore(before, front, item, n);
      }
    }
  }

  lemma HeldOneMore(before: seq<Option<Vector>>, front: seq<Json>, item: Json, n: nat)
    requires Holds(before, front, n) && IsEmbedding(item) && IndexOf(item) < n && before[IndexOf(item)].None?
    requires Distinct(front + [item], n)
    ensures Holds(before[IndexOf(item) := Some(VectorOf(item))], front + [item], n)
  {
    hide IsEmbedding, IndexOf, VectorOf, Has;
    var i := IndexOf(item);
    var out, items := before[i := Some(VectorOf(item))], front + [item];
    assert Filled(out) == Filled(before) + {i} && i !in Filled(before);
    forall k | 0 <= k < |items| ensures out[IndexOf(items[k])] == Some(VectorOf(items[k])) {
      if k < |front| {
        assert items[k] == front[k];
        assert before[IndexOf(front[k])] == Some(VectorOf(front[k]));
      }
    }
    forall j | j in Filled(out) ensures Has(items, j) {
      HasMore(front, item, j);
    }
  }

  lemma {:induction false} PlacedEach(data: seq<Json>, n: nat)
    ensures PlaceAll(data, n).Ok? <==> Distinct(data, n)
    ensures PlaceAll(data, n).Ok? ==> Holds(PlaceAll(data, n).value, data, n)
    decreases |data|
  {
    hide Place, IsEmbedding, IndexOf, VectorOf;
    if data == [] {
      assert Filled(seq(n, _ => None)) == {};
    } else {
      var m := |data| - 1;
      var front := data[..m];
      PlacedEach(front, n);
      assert data == front + [data[m]];
      if Distinct(data, n) {
        assert forall k | 0 <= k < m :: front[k] == data[k];
        assert Distinct(front, n);
      }
      if Distinct(front, n) {
        PlacedOneMore(front, data[m], PlaceAll(front, n).value, n);
      }
    }
  }

  function Below(n: nat): (s: set<nat>)
    ensures forall i: nat :: i in s <==> i < n
    ensures |s| == n
  {
    if n == 0 then {} else Below(n - 1) + {n - 1}
  }

  lemma {:induction false} SubsetCount(a: set<nat>, b: set<nat>)
    requires a <= b
    ensures |a| <= |b|
  {
    if a != {} {
      var x := Member(a);
      SubsetCount(a - {x}, b - {x});
    }
  }

  /** `n` different slots out of `n` are all of them. */
  lemma AllSlotsFilled(out: seq<Option<Vector>>, i: nat)
    requires |Filled(out)| == |out| && i < |out|
    ensures i in Filled(out)
  {
    if out[i].None? {
      SubsetCount(Filled(out), Below(|out|) - {i});
    }
  }

  /**
   * A response is accepted exactly when it has one embedding for each input; the result then
   * has each at its own index, whatever the order they came in, and none is missing.
   */
  lemma ResponsesAreReassembled(response: Json, n: nat)
    ensures Parsed(response, n).Ok? <==> Field(response, "data").Arr? && Complete(Field(response, "data").items, n)
    ensures Parsed(response, n).Ok? ==>
              var vectors, items := Parsed(response, n).value, Field(response, "data").items;
              && |vectors| == n
              && (forall k | 0 <= k < n :: vectors[IndexOf(items[k])] == VectorOf(items[k]))
              && (forall i: nat | i < n :: Has(items, i))
  {
    hide Place, PlaceAll, IsEmbedding, IndexOf, VectorOf;
    var data := Field(response, "data");
    if data.Arr? && |data.items| == n {
      PlacedEach(data.items, n);
      if Parsed(response, n).Ok? {
        var out := PlaceAll(data.items, n).value;
        forall i: nat | i < n ensures Has(data.items, i) {
          AllSlotsFilled(out, i);
        }
      }
    }
  }

  /** In terms of the JSON: an object whose `index` is `i` and whose `embedding` lists the numbers of `v`. */
  ghost predicate Entry(item: Json, i: nat, v: Vector) {
    && item.Obj? && "index" in item.fields && "embedding" in item.fields
    && item.fields["index"].Num? && item.fields["index"].unsigned == Some(i)
    && item.fields["embedding"].Arr?
    && var numbers := item.fields["embedding"].items;
       |numbers| == |v| && forall j | 0 <= j < |v| :: numbers[j].Num? && numbers[j].float == v[j]
  }

  ghost predicate EntryBelow(item: Json, n: nat) {
    exists i: nat, v :: i < n && Entry(item, i, v)
  }

  predicate Listed(response: Json) {
    response.Obj? && "data" in response.fields && response.fields["data"].Arr?
  }

  /** An array of `n` entries, with indices below `n` and no two the same. */
  ghost predicate Entries(items: seq<Json>, n: nat) {
    && |items| == n
    && (forall k | 0 <= k < n :: EntryBelow(items[k], n))
    && (forall j, k, i: nat, u, v | 0 <= j < k < n && Entry(items[j], i, u) :: !Entry(items[k], i, v))
  }

  lemma EntryIs(item: Json)
    ensures IsEmbedding(item) ==> Entry(item, IndexOf(item), VectorOf(item))
    ensures forall i: nat, v | Entry(item, i, v) :: IsEmbedding(item) && IndexOf(item) == i && VectorOf(item) == v
  {
    forall i: nat, v | Entry(item, i, v) ensures IsEmbedding(item) && IndexOf(item) == i && VectorOf(item) == v {
      assert Field(item, "index") == item.fields["index"];
      assert Field(item, "embedding") == item.fields["embedding"];
      assert VectorOf(item) == v;
    }
  }

  /**
   * The same in terms of the JSON alone: which responses are accepted, and that each entry's
   * numbers are the vector at its index.
   */
  lemma AcceptedResponses(response: Json, n: nat)
    ensures Parsed(response, n).Ok? <==> Listed(response) && Entries(response.fields["data"].items, n)
    ensures Parsed(response, n).Ok? ==>
              && |Parsed(response, n).value| == n
              && forall k, i: nat, v | 0 <= k < n && Entry(response.fields["data"].items[k], i, v) ::
                i < n && Parsed(response, n).value[i] == v
  {
    hide Parsed, IsEmbedding, IndexOf, VectorOf, Entry;
    ResponsesAreReassembled(response, n);
    var data := Field(response, "data");
    if data.Arr? {
      CompleteAreEntries(data.items, n);
      forall k, i: nat, v | Parsed(response, n).Ok? && 0 <= k < n && Entry(data.items[k], i, v)
        ensures i < n && Parsed(response, n).value[i] == v
      {
        EntryIs(data.items[k]);
      }
    }
  }

  ghost predicate HasIndex(item: Json, i: nat) {
    item.Obj? && "index" in item.fields && item.fields["index"].Num? && item.fields["index"].unsigned == Some(i)
  }

  /** What is wrong with an item, after `earlier` ones that are in order. */
  ghost predicate Faulty(earlier: seq<Json>, item: Json, n: nat, fault: Error) {
    var numbers := if item.Obj? && "embedding" in item.fields then item.fields["embedding"] else Null;
    match fault
    case NoIndex => forall i: nat :: !HasIndex(item, i)
    case OutOfRange(i) => HasIndex(item, i) && i >= n
    case Twice(i) => HasIndex(item, i) && i < n && exists other :: other in earlier && HasIndex(other, i)
    case NotAnArray => (exists i: nat :: HasIndex(item, i)) && !numbers.Arr?
    case NotANumber => (exists i: nat :: HasIndex(item, i)) && numbers.Arr? && exists x :: x in numbers.items && !x.Num?
    case _ => false
  }

  /** A refused response is not a list, is of the wrong length, or has a first item with a fault, which is named. */
  lemma WhyAResponseIsRefused(response: Json, n: nat)
    requires Parsed(response, n).Err?
    ensures var fault := Parsed(response, n).error;
            if !Listed(response) then fault == NoData
            else if |response.fields["data"].items| != n then fault == WrongCount(|response.fields["data"].items|, n)
            else
              var items := response.fields["data"].items;
              exists k: nat :: k < n && Distinct(items[..k], n) && Faulty(items[..k], items[k], n, fault)
  {
    hide PlaceAll, Distinct, Faulty;
    if Listed(response) && |response.fields["data"].items| == n {
      var k := FirstFault(response.fields["data"].items, n);
    }
  }

  lemma {:induction false} FirstFault(items: seq<Json>, n: nat) returns (k: nat)
    requires PlaceAll(items, n).Err?
    ensures k < |items| && Distinct(items[..k], n) && Faulty(items[..k], items[k], n, PlaceAll(items, n).error)
    decreases |items|
  {
    hide Place, Distinct, Faulty;
    var front := items[..|items| - 1];
    if PlaceAll(front, n).Err? {
      k := FirstFault(front, n);
      assert items[..k] == front[..k];
    } else {
      k := |items| - 1;
      PlacedEach(front, n);
      FaultOf(front, PlaceAll(front, n).value, items[k], n);
    }
  }

  lemma FaultOf(front: seq<Json>, out: seq<Option<Vector>>, item: Json, n: nat)
    requires Holds(out, front, n) && Place(out, item).Err?
    ensures Faulty(front, item, n, Place(out, item).error)
  {
    var index := Field(item, "index");
    if index.Num? && index.unsigned.Some? {
      var i := index.unsigned.value;
      assert HasIndex(item, i);
      if i < n && out[i].Some? {
        assert i in Filled(out) && Has(front, i);
        var k :| 0 <= k < |front| && IsEmbedding(front[k]) && IndexOf(front[k]) == i;
        assert HasIndex(front[k], i) && front[k] in front;
      }
    }
  }

  lemma CompleteAreEntries(items: seq<Json>, n: nat)
    ensures Complete(items, n) <==> Entries(items, n)
  {
    hide IsEmbedding, IndexOf, VectorOf, Entry;
    if Complete(items, n) {
      forall k | 0 <= k < n ensures EntryBelow(items[k], n) {
        EntryIs(items[k]);
      }
      forall j, k, i: nat, u, v | 0 <= j < k < n && Entry(items[j], i, u) ensures !Entry(items[k], i, v) {
        EntryIs(items[j]);
        EntryIs(items[k]);
      }
    }
    if Entries(items, n) {
      forall k | 0 <= k < n
        ensures IsEmbedding(items[k]) && IndexOf(items[k]) < n
        ensures Entry(items[k], IndexOf(items[k]), VectorOf(items[k]))
      {
        EntryIs(items[k]);
        var i: nat, v :| i < n && Entry(items[k], i, v);
      }
      forall j, k | 0 <= j < k < n ensures IndexOf(items[j]) != IndexOf(items[k]) {
        assert Entry(items[j], IndexOf(items[j]), VectorOf(items[j]));
        assert Entry(items[k], IndexOf(items[k]), VectorOf(items[k]));
      }
    }
  }

  // ----- the whole call -----

  /** A vector cut to the configured dimension and normalized again, when it is longer. */
  function Fitted(v: Vector, dimension: nat, renormalize: Vector -> Vector): Result<Vector, Error> {
    if |v| < dimension then Err(TooShort(|v|))
    else if |v| > dimension then Ok(renormalize(v[..dimension]))
    else Ok(v)
  }

  /** All of them, or the error of the first that does not fit. */
  function FittedAll(vs: seq<Vector>, dimension: nat, renormalize: Vector -> Vector): (r: Result<seq<Vector>, Error>)
    ensures r.Ok? ==> |r.value| == |vs|
  {
    if vs == [] then Ok([])
    else match FittedAll(vs[..|vs| - 1], dimension, renormalize)
      case Err(e) => Err(e)
      case Ok(out) =>
        match Fitted(vs[|vs| - 1], dimension, renormalize)
        case Err(e) => Err(e)
        case Ok(v) => Ok(out + [v])
  }

  /** What the endpoint answers to the `n`-th request, for these inputs. */
  type Endpoint = (nat, seq<string>) -> Result<Json, Error>

  /** The vectors of one request. */
  function Requested(post: Endpoint, n: nat, inputs: seq<string>, dimension: nat,
                     renormalize: Vector -> Vector): (r: Result<seq<Vector>, Error>)
  {
    match post(n, inputs)
    case Err(e) => Err(e)
    case Ok(response) =>
      match Parsed(response, |inputs|)
      case Err(e) => Err(e)
      case Ok(vs) => FittedAll(vs, dimension, renormalize)
  }

  ghost predicate InRange(groups: seq<Range>, n: nat) {
    forall g | g in groups :: g.start <= g.end <= n
  }

  /** The vectors of all the requests, in order, or the first error. */
  function RequestedAll(post: Endpoint, capped: seq<string>, groups: seq<Range>, dimension: nat,
                        renormalize: Vector -> Vector): Result<seq<Vector>, Error>
    requires InRange(groups, |capped|)
  {
    if groups == [] then Ok([])
    else
      var n := |groups| - 1;
      assert groups[n] in groups;
      match RequestedAll(post, capped, groups[..n], dimension, renormalize)
      case Err(e) => Err(e)
      case Ok(out) =>
        match Requested(post, n, capped[groups[n].start..groups[n].end], dimension, renormalize)
        case Err(e) => Err(e)
        case Ok(vs) => Ok(out + vs)
  }

  ghost function Embedded(post: Endpoint, texts: seq<string>, dimension: nat,
                          renormalize: Vector -> Vector): Result<seq<Vector>, Error>
  {
    var capped := Capped(texts);
    GreedyInRange(capped);
    RequestedAll(post, capped, Greedy(capped, 0), dimension, renormalize)
  }

  lemma GreedyInRange(texts: seq<string>)
    ensures InRange(Greedy(texts, 0), |texts|)
  {
    GreedyCovers(texts, 0);
    CoversMeans(texts, 0, Greedy(texts, 0));
  }

  lemma {:induction false} FirstMisfit(vs: seq<Vector>, k: nat, dimension: nat, renormalize: Vector -> Vector)
    requires k <= |vs| && FittedAll(vs[..k], dimension, renormalize).Err?
    ensures FittedAll(vs, dimension, renormalize) == FittedAll(vs[..k], dimension, renormalize)
    decreases |vs|
  {
    if k == |vs| {
      assert vs[..k] == vs;
    } else {
      assert vs[..|vs| - 1][..k] == vs[..k];
      FirstMisfit(vs[..|vs| - 1], k, dimension, renormalize);
    }
  }

  lemma {:induction false} FirstFailedRequest(post: Endpoint, capped: seq<string>, groups: seq<Range>, k: nat,
                                              dimension: nat, renormalize: Vector -> Vector)
    requires InRange(groups, |capped|)
    requires k <= |groups| && RequestedAll(post, capped, groups[..k], dimension, renormalize).Err?
    ensures RequestedAll(post, capped, groups, dimension, renormalize) ==
        RequestedAll(post, capped, groups[..k], dimension, renormalize)
    decreases |groups|
  {
    if k == |groups| {
      assert groups[..k] == groups;
    } else {
      assert groups[..|groups| - 1][..k] == groups[..k];
      FirstFailedRequest(post, capped, groups[..|groups| - 1], k, dimension, renormalize);
    }
  }

  /** Check, cut and push the vectors of one request. */
  method PushFitted(before: seq<Vector>, vs: seq<Vector>, dimension: nat, renormalize: Vector -> Vector)
    returns (r: Result<seq<Vector>, Error>)
    ensures var fitted := FittedAll(vs, dimension, renormalize);
            r == if fitted.Ok? then Ok(before + fitted.value) else fitted
  {
    var out := before;
    assert vs[..|vs|] == vs;
    for k := 0 to |vs|
      invariant FittedAll(vs[..k], dimension, renormalize).Ok?
      invariant out == before + FittedAll(vs[..k], dimension, renormalize).value
    {
      assert vs[..k + 1][..k] == vs[..k];
      var v := vs[k];
      if |v| < dimension {
        FirstMisfit(vs, k + 1, dimension, renormalize);
        return Err(TooShort(|v|));
      }
      out := out + [if |v| > dimension then renormalize(v[..dimension]) else v];
    }
    r := Ok(out);
  }

  method EmbedTexts(post: Endpoint, texts: seq<string>, dimension: nat, renormalize: Vector -> Vector)
    returns (r: Result<seq<Vector>, Error>)
    ensures r == Embedded(post, texts, dimension, renormalize)
  {
    hide Parsed, Greedy, FittedAll;
    var capped := Capped(texts);
    var out: seq<Vector> := [];
    var groups := GroupRequests(capped);
    GreedyInRange(capped);
    assert groups[..|groups|] == groups;
    for n := 0 to |groups|
      invariant RequestedAll(post, capped, groups[..n], dimension, renormalize) == Ok(out)
    {
      assert groups[n] in groups && groups[..n + 1][..n] == groups[..n];
      var inputs := capped[groups[n].start..groups[n].end];
      var response := post(n, inputs);
      if response.Err? {
        FirstFailedRequest(post, capped, groups, n + 1, dimension, renormalize);
        return Err(response.error);
      }
      var parsed := ParseResponse(response.value, |inputs|);
      if parsed.Err? {
        FirstFailedRequest(post, capped, groups, n + 1, dimension, renormalize);
        return Err(parsed.error);
      }
      var pushed := PushFitted(out, parsed.value, dimension, renormalize);
      if pushed.Err? {
        FirstFailedRequest(post, capped, groups, n + 1, dimension, renormalize);
        return Err(pushed.error);
      }
      out := pushed.value;
    }
    r := Ok(out);
  }

  // ----- one vector for each text, the endpoint's own -----

  lemma {:induction false} FittedEach(vs: seq<Vector>, dimension: nat, renormalize: Vector -> Vector)
    ensures FittedAll(vs, dimension, renormalize).Ok? <==> forall i | 0 <= i < |vs| :: |vs[i]| >= dimension
    ensures FittedAll(vs, dimension, renormalize).Ok? ==>
              forall i | 0 <= i < |vs| ::
                Ok(FittedAll(vs, dimension, renormalize).value[i]) == Fitted(vs[i], dimension, renormalize)
    decreases |vs|
  {
    if vs != [] {
      FittedEach(vs[..|vs| - 1], dimension, renormalize);
      assert vs == vs[..|vs| - 1] + [vs[|vs| - 1]];
    }
  }

  /** Normalizing again keeps the length. */
  ghost predicate KeepsLength(renormalize: Vector -> Vector) {
    forall v :: |renormalize(v)| == |v|
  }

  lemma {:induction false} RequestsMakeOneEach(post: Endpoint, capped: seq<string>, groups: seq<Range>, dimension: nat,
                                               renormalize: Vector -> Vector)
    requires KeepsLength(renormalize) && InRange(groups, |capped|)
    requires forall k | 0 < k < |groups| :: groups[k - 1].end == groups[k].start
    requires groups != [] ==> groups[0].start == 0
    ensures RequestedAll(post, capped, groups, dimension, renormalize).Ok? ==>
              var out := RequestedAll(post, capped, groups, dimension, renormalize).value;
              && |out| == (if groups == [] then 0 else groups[|groups| - 1].end)
              && forall i | 0 <= i < |out| :: |out[i]| == dimension
    decreases |groups|
  {
    hide Fitted, Parsed;
    if groups != [] {
      var n := |groups| - 1;
      assert groups[n] in groups;
      RequestsMakeOneEach(post, capped, groups[..n], dimension, renormalize);
      OneRequestMakesOneEach(post, n, capped[groups[n].start..groups[n].end], dimension, renormalize);
    }
  }

  lemma OneRequestMakesOneEach(post: Endpoint, n: nat, inputs: seq<string>, dimension: nat,
                               renormalize: Vector -> Vector)
    requires KeepsLength(renormalize)
    ensures Requested(post, n, inputs, dimension, renormalize).Ok? ==>
              var out := Requested(post, n, inputs, dimension, renormalize).value;
              |out| == |inputs| && forall i | 0 <= i < |out| :: |out[i]| == dimension
  {
    hide Parsed;
    if Requested(post, n, inputs, dimension, renormalize).Ok? {
      var response := post(n, inputs).value;
      ResponsesAreReassembled(response, |inputs|);
      FittedEach(Parsed(response, |inputs|).value, dimension, renormalize);
    }
  }

  /**
   * Whatever it answers to one request: a success gives each entry's own numbers at its index, if
   * they are as many as configured, or else the first of them normalized again.
   */
  lemma EachEntryIsCutToSize(post: Endpoint, n: nat, inputs: seq<string>, dimension: nat, renormalize: Vector -> Vector)
    requires Requested(post, n, inputs, dimension, renormalize).Ok?
    ensures var out := Requested(post, n, inputs, dimension, renormalize).value;
            && |out| == |inputs|
            && post(n, inputs).Ok? && Parsed(post(n, inputs).value, |inputs|).Ok?
            && forall k, i: nat, v | 0 <= k < |inputs| && Entry(post(n, inputs).value.fields["data"].items[k], i, v) ::
              i < |inputs| && |v| >= dimension && out[i] == if |v| == dimension then v else renormalize(v[..dimension])
  {
    hide Parsed, Entry;
    var response := post(n, inputs).value;
    AcceptedResponses(response, |inputs|);
    FittedEach(Parsed(response, |inputs|).value, dimension, renormalize);
  }

  /** Whatever the endpoint answers: a success has one vector for each text, each of the configured dimension. */
  lemma OneVectorPerText(post: Endpoint, texts: seq<string>, dimension: nat, renormalize: Vector -> Vector)
    requires KeepsLength(renormalize)
    ensures Embedded(post, texts, dimension, renormalize).Ok? ==>
              var out := Embedded(post, texts, dimension, renormalize).value;
              |out| == |texts| && forall i | 0 <= i < |out| :: |out[i]| == dimension
  {
    hide RequestedAll;
    var capped := Capped(texts);
    GreedyCovers(capped, 0);
    CoversMeans(capped, 0, Greedy(capped, 0));
    GreedyInRange(capped);
    RequestsMakeOneEach(post, capped, Greedy(capped, 0), dimension, renormalize);
  }

  /** One embedding object for each input, in any order, its vector `f` of the input. */
  ghost predicate Answers(response: Json, inputs: seq<string>, f: string -> Vector) {
    var data := Field(response, "data");
    && data.Arr? && Complete(data.items, |inputs|)
    && forall k | 0 <= k < |inputs| :: VectorOf(data.items[k]) == f(inputs[IndexOf(data.items[k])])
  }

  /** The first `end` inputs, embedded. */
  function Mapped(f: string -> Vector, inputs: seq<string>, end: nat): seq<Vector>
    requires end <= |inputs|
  {
    seq(end, i requires 0 <= i < end => f(inputs[i]))
  }

  /** An endpoint that embeds each input by one fixed function. */
  ghost predicate Honest(post: Endpoint, f: string -> Vector) {
    forall n, inputs :: post(n, inputs).Ok? && Answers(post(n, inputs).value, inputs, f)
  }

  lemma HonestlyParsed(response: Json, inputs: seq<string>, f: string -> Vector)
    requires Answers(response, inputs, f)
    ensures Parsed(response, |inputs|) == Ok(Mapped(f, inputs, |inputs|))
  {
    hide Parsed, IndexOf, VectorOf, IsEmbedding;
    ResponsesAreReassembled(response, |inputs|);
    var items, vectors := Field(response, "data").items, Parsed(response, |inputs|).value;
    forall i: nat | i < |inputs| ensures vectors[i] == f(inputs[i]) {
      assert Has(items, i);
      var k :| 0 <= k < |items| && IsEmbedding(items[k]) && IndexOf(items[k]) == i;
      assert vectors[IndexOf(items[k])] == VectorOf(items[k]);
    }
    assert vectors == Mapped(f, inputs, |inputs|);
  }

  lemma {:induction false} HonestRequests(post: Endpoint, f: string -> Vector, capped: seq<string>, groups: seq<Range>,
                                          dimension: nat,
                                          renormalize: Vector -> Vector)
    requires Honest(post, f) && InRange(groups, |capped|)
    requires forall k | 0 < k < |groups| :: groups[k - 1].end == groups[k].start
    requires groups != [] ==> groups[0].start == 0
    ensures groups != [] ==> groups[|groups| - 1] in groups
    ensures var end := if groups == [] then 0 else groups[|groups| - 1].end;
            RequestedAll(post, capped, groups, dimension, renormalize) ==
            FittedAll(Mapped(f, capped, end), dimension, renormalize)
    decreases |groups|
  {
    hide Parsed, Answers;
    if groups != [] {
      var n := |groups| - 1;
      assert groups[n] in groups;
      var start, end := groups[n].start, groups[n].end;
      var inputs := capped[start..end];
      HonestRequests(post, f, capped, groups[..n], dimension, renormalize);
      assert Answers(post(n, inputs).value, inputs, f);
      HonestlyParsed(post(n, inputs).value, inputs, f);
      var before, these := Mapped(f, capped, start), Mapped(f, inputs, |inputs|);
      FittedAppend(before, these, dimension, renormalize);
      assert Mapped(f, capped, end) == before + these;
    }
  }

  lemma {:induction false} FittedAppend(a: seq<Vector>, b: seq<Vector>, dimension: nat, renormalize: Vector -> Vector)
    ensures FittedAll(a + b, dimension, renormalize) ==
            match FittedAll(a, dimension, renormalize)
            case Err(e) => Err(e)
            case Ok(x) =>
              match FittedAll(b, dimension, renormalize)
              case Err(e) => Err(e)
              case Ok(y) => Ok(x + y)
    decreases |b|
  {
    hide Fitted;
    if b == [] {
      assert a + b == a;
      if FittedAll(a, dimension, renormalize).Ok? {
        var x := FittedAll(a, dimension, renormalize).value;
        assert x + [] == x;
      }
    } else {
      FittedAppend(a, b[..|b| - 1], dimension, renormalize);
      assert (a + b)[..|a + b| - 1] == a + b[..|b| - 1];
      assert (a + b)[|a + b| - 1] == b[|b| - 1];
      if FittedAll(a + b, dimension, renormalize).Ok? {
        var x, y := FittedAll(a, dimension, renormalize).value, FittedAll(b[..|b| - 1], dimension, renormalize).value;
        var v := Fitted(b[|b| - 1], dimension, renormalize).value;
        assert x + (y + [v]) == x + y + [v];
      }
    }
  }

  /**
   * Against an endpoint that embeds each input by one function, and lists its answers in any
   * order: the call fails only if some vector is too short, and otherwise the `i`-th result is
   * the vector of the capped `i`-th text, or its first coordinates normalized again, however the
   * texts were cut into requests.
   */
  lemma ResultsFollowTheTexts(post: Endpoint, f: string -> Vector, texts: seq<string>, dimension: nat,
                              renormalize: Vector -> Vector)
    requires Honest(post, f)
    ensures var r := Embedded(post, texts, dimension, renormalize);
            && (r.Ok? <==> forall i | 0 <= i < |texts| :: |f(CapChars(texts[i], MAX_INPUT_CHARS))| >= dimension)
            && (r.Ok? ==> |r.value| == |texts|)
            && (r.Ok? ==>
                forall i | 0 <= i < |texts| ::
                  var v := f(CapChars(texts[i], MAX_INPUT_CHARS));
                  r.value[i] == if |v| == dimension then v else renormalize(v[..dimension]))
  {
    hide RequestedAll, Honest;
    var capped := Capped(texts);
    var groups := Greedy(capped, 0);
    GreedyCovers(capped, 0);
    CoversMeans(capped, 0, groups);
    GreedyInRange(capped);
    HonestRequests(post, f, capped, groups, dimension, renormalize);
    var all := Mapped(f, capped, |capped|);
    FittedEach(all, dimension, renormalize);
    assert Embedded(post, texts, dimension, renormalize) == FittedAll(all, dimension, renormalize);
    assert forall i | 0 <= i < |texts| :: all[i] == f(CapChars(texts[i], MAX_INPUT_CHARS));
  }
}
