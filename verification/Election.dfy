/** The ranking function of the role election: who is primary and who is secondary. */
module Election {
  import opened Wrappers

  /** Device and workspace ids: all the election needs of one is that ids are totally ordered. */
  type GrainId = int

  type U8 = n: nat | n < 256

  /** A device as the ranking sees it, with its claims to the two roles. */
  datatype Candidate = Candidate(
    deviceId: GrainId,
    priority: U8,
    availability: Option<U8>,
    claimsPrimary: bool,
    claimsSecondary: bool)

  /** Who is elected to each role; `MESH` stands for nobody. */
  datatype Roles = Roles(primary: Option<GrainId>, secondary: Option<GrainId>)

  const MESH := Roles(None, None)

  /** An unknown availability ranks below every known one. */
  function Uptime(a: Option<U8>): int {
    if a.None? then -1 else a.value
  }

  /** Priority, then availability, then device id: `a` strictly above `b`. */
  predicate Outranks(a: Candidate, b: Candidate) {
    || a.priority > b.priority
    || (a.priority == b.priority && Uptime(a.availability) > Uptime(b.availability))
    || (a.priority == b.priority && Uptime(a.availability) == Uptime(b.availability) && a.deviceId > b.deviceId)
  }

  predicate Anyone(c: Candidate) { true }

  predicate ClaimsPrimary(c: Candidate) { c.claimsPrimary }

  predicate ClaimsSecondary(c: Candidate) { c.claimsSecondary }

  predicate Eligible(c: Candidate) { c.priority > 0 }

  function Filter<T(!new)>(s: seq<T>, keep: T -> bool): (r: seq<T>)
    ensures forall x :: x in r <==> x in s && keep(x)
  {
    if s == [] then []
    else
      var rest := Filter(s[1..], keep);
      assert s == [s[0]] + s[1..];
      if keep(s[0]) then [s[0]] + rest else rest
  }

  /** The maximum by rank; among equals the last one, as an iterator's `max_by_key` gives. */
  function Top(pool: seq<Candidate>): (r: Option<Candidate>)
    ensures r.None? <==> pool == []
    ensures r.Some? ==> r.value in pool && forall c | c in pool :: !Outranks(c, r.value)
  {
    if pool == [] then None
    else
      var last := pool[|pool| - 1];
      var front := pool[..|pool| - 1];
      assert pool == front + [last];
      match Top(front)
      case None => Some(last)
      case Some(t) => if Outranks(t, last) then Some(t) else Some(last)
  }

  /** The best-ranked device of `pool` among those `pick` accepts. */
  function Best(pool: seq<Candidate>, pick: Candidate -> bool): (r: Option<GrainId>)
    ensures r.None? <==> forall c | c in pool :: !pick(c)
    ensures r.Some? ==> exists c :: IsBest(pool, pick, c) && c.deviceId == r.value
  {
    var picked := Filter(pool, pick);
    match Top(picked)
    case None =>
      assert forall c | c in pool :: pick(c) ==> c in picked;
      None
    case Some(c) =>
      assert IsBest(pool, pick, c);
      Some(c.deviceId)
  }

  ghost predicate IsBest(pool: seq<Candidate>, pick: Candidate -> bool, c: Candidate) {
    && c in pool && pick(c)
    && forall d | d in pool && pick(d) :: !Outranks(d, c)
  }

  /** No two devices tie: a candidate that nobody outranks is the one `Best` names. */
  lemma BestIs(pool: seq<Candidate>, pick: Candidate -> bool, c: Candidate)
    requires IsBest(pool, pick, c)
    ensures Best(pool, pick) == Some(c.deviceId)
  {
    var d :| IsBest(pool, pick, d) && Best(pool, pick) == Some(d.deviceId);
    assert IsBest(pool, pick, d);
  }

  function Rest(eligible: seq<Candidate>, primary: Option<GrainId>): (r: seq<Candidate>)
    ensures forall c :: c in r <==> c in eligible && Some(c.deviceId) != primary
  {
    Filter(eligible, (c: Candidate) => Some(c.deviceId) != primary)
  }

  function OrElse<T>(first: Option<T>, second: Option<T>): Option<T> {
    if first.Some? then first else second
  }

  /**
   * Two walks down the ranking of the eligible, each stopping at the first rule that names
   * somebody: claims come before rank, and `promote` lets a secondary claim count for the first
   * role. The second walk leaves out whoever the first one named.
   */
  function Elect(candidates: seq<Candidate>, promote: bool): Roles {
    var eligible := Filter(candidates, Eligible);
    var primary := OrElse(Best(eligible, ClaimsPrimary),
                          OrElse(if promote then Best(eligible, ClaimsSecondary) else None,
                                 Best(eligible, Anyone)));
    var rest := Rest(eligible, primary);
    Roles(primary, OrElse(Best(rest, ClaimsSecondary), Best(rest, Anyone)))
  }

  // ----- what the election decides -----

  ghost predicate SameMembers<T(!new)>(a: seq<T>, b: seq<T>) {
    forall x :: x in a <==> x in b
  }

  lemma BestIgnoresOrder(a: seq<Candidate>, b: seq<Candidate>, pick: Candidate -> bool)
    requires SameMembers(a, b)
    ensures Best(a, pick) == Best(b, pick)
  {
    match Best(a, pick)
    case None =>
      assert forall c | c in b :: c in a;
    case Some(_) =>
      var c :| IsBest(a, pick, c) && Best(a, pick) == Some(c.deviceId);
      assert IsBest(b, pick, c);
      BestIs(b, pick, c);
  }

  /** Peers come out of an unordered map; the outcome does not depend on their order. */
  lemma ElectIgnoresOrder(a: seq<Candidate>, b: seq<Candidate>, promote: bool)
    requires SameMembers(a, b)
    ensures Elect(a, promote) == Elect(b, promote)
  {
    var ea, eb := Filter(a, Eligible), Filter(b, Eligible);
    assert SameMembers(ea, eb);
    BestIgnoresOrder(ea, eb, ClaimsPrimary);
    BestIgnoresOrder(ea, eb, ClaimsSecondary);
    BestIgnoresOrder(ea, eb, Anyone);
    var p := Elect(a, promote).primary;
    var ra, rb := Rest(ea, p), Rest(eb, p);
    assert SameMembers(ra, rb);
    BestIgnoresOrder(ra, rb, ClaimsSecondary);
    BestIgnoresOrder(ra, rb, Anyone);
  }

  /** The reference: walk the candidates from the highest rank down, take the first that fits. */
  function FirstFit(ranked: seq<Candidate>, pick: Candidate -> bool): Option<GrainId> {
    if ranked == [] then None
    else if pick(ranked[0]) then Some(ranked[0].deviceId)
    else FirstFit(ranked[1..], pick)
  }

  ghost predicate Ranked(s: seq<Candidate>) {
    forall i, j | 0 <= i < j < |s| :: !Outranks(s[j], s[i])
  }

  lemma {:induction false} FirstFitIsBest(ranked: seq<Candidate>, pool: seq<Candidate>,
                                           fits: Candidate -> bool, pick: Candidate -> bool)
    requires Ranked(ranked)
    requires forall c :: c in pool && pick(c) <==> c in ranked && fits(c)
    ensures FirstFit(ranked, fits) == Best(pool, pick)
  {
    if ranked == [] {
      assert Best(pool, pick).None?;
    } else if fits(ranked[0]) {
      forall d | d in pool && pick(d) ensures !Outranks(d, ranked[0]) {
        var j :| 0 <= j < |ranked| && ranked[j] == d;
      }
      assert IsBest(pool, pick, ranked[0]);
      BestIs(pool, pick, ranked[0]);
    } else {
      forall c ensures c in ranked && fits(c) <==> c in ranked[1..] && fits(c) {
        assert ranked == [ranked[0]] + ranked[1..];
      }
      FirstFitIsBest(ranked[1..], pool, fits, pick);
    }
  }

  /**
   * The whole election against the reference, for any arrangement of the candidates from the
   * highest rank down.
   */
  lemma ElectIsFirstFit(candidates: seq<Candidate>, ranked: seq<Candidate>, promote: bool)
    requires SameMembers(candidates, ranked) && Ranked(ranked)
    ensures Elect(candidates, promote).primary ==
            OrElse(FirstFit(ranked, c => Eligible(c) && c.claimsPrimary),
                   OrElse(FirstFit(ranked, c => Eligible(c) && c.claimsSecondary && promote),
                          FirstFit(ranked, Eligible)))
    ensures var primary := Elect(candidates, promote).primary;
            Elect(candidates, promote).secondary ==
            OrElse(FirstFit(ranked, c => Eligible(c) && Some(c.deviceId) != primary && c.claimsSecondary),
                   FirstFit(ranked, c => Eligible(c) && Some(c.deviceId) != primary))
  {
    var eligible := Filter(candidates, Eligible);
    FirstFitIsBest(ranked, eligible, c => Eligible(c) && c.claimsPrimary, ClaimsPrimary);
    if promote {
      FirstFitIsBest(ranked, eligible, c => Eligible(c) && c.claimsSecondary && promote, ClaimsSecondary);
    } else {
      FirstFitIsBest(ranked, [], c => Eligible(c) && c.claimsSecondary && promote, Anyone);
    }
    FirstFitIsBest(ranked, eligible, Eligible, Anyone);
    var primary := Elect(candidates, promote).primary;
    var rest := Rest(eligible, primary);
    FirstFitIsBest(ranked, rest, c => Eligible(c) && Some(c.deviceId) != primary && c.claimsSecondary, ClaimsSecondary);
    FirstFitIsBest(ranked, rest, c => Eligible(c) && Some(c.deviceId) != primary, Anyone);
  }

  /** Roles go to eligible candidates, never both to one, and only when there is one to take them. */
  lemma ElectedAreEligible(candidates: seq<Candidate>, promote: bool)
    ensures var r := Elect(candidates, promote);
            && (r.primary.Some? <==> exists c :: c in candidates && Eligible(c))
            && (r.primary.Some? ==> exists c :: c in candidates && Eligible(c) && c.deviceId == r.primary.value)
            && (r.secondary.Some? ==> exists c :: c in candidates && Eligible(c) && c.deviceId == r.secondary.value)
            && (r.secondary.Some? ==> r.primary.Some? && r.primary != r.secondary)
            && (r.secondary.Some? <==> exists c :: c in candidates && Eligible(c) && Some(c.deviceId) != r.primary)
  {
    var eligible := Filter(candidates, Eligible);
    var r := Elect(candidates, promote);
    var rest := Rest(eligible, r.primary);
    assert forall c :: c in candidates && Eligible(c) <==> c in eligible;
    assert forall c | c in eligible :: Anyone(c);
    assert forall c | c in rest :: Anyone(c);
    assert r.secondary.Some? ==> exists c :: c in rest && c.deviceId == r.secondary.value;
  }

  /** The candidates the primary role is decided among: claims before promoted standbys, and those before anyone. */
  ghost predicate Contends(candidates: seq<Candidate>, promote: bool, c: Candidate) {
    var claimed := exists d :: d in candidates && d.priority > 0 && d.claimsPrimary;
    var promoted := promote && exists d :: d in candidates && d.priority > 0 && d.claimsSecondary;
    && c in candidates && c.priority > 0
    && (claimed ==> c.claimsPrimary)
    && (!claimed && promoted ==> c.claimsSecondary)
  }

  /** And the secondary role, once `primary` has the other. */
  ghost predicate StandsBy(candidates: seq<Candidate>, primary: GrainId, c: Candidate) {
    var claimed := exists d :: d in candidates && d.priority > 0 && d.deviceId != primary && d.claimsSecondary;
    && c in candidates && c.priority > 0 && c.deviceId != primary
    && (claimed ==> c.claimsSecondary)
  }

  /**
   * Said of the fields alone: `d` has no higher priority; at the same priority no availability
   * that is known where `c`'s is not, and no larger one; and with both the same no larger id.
   */
  ghost predicate AtLeast(c: Candidate, d: Candidate) {
    && d.priority <= c.priority
    && (d.priority == c.priority && d.availability.Some? ==>
          c.availability.Some? && d.availability.value <= c.availability.value)
    && (d.priority == c.priority && d.availability == c.availability ==> d.deviceId <= c.deviceId)
  }

  lemma BestByFields(pool: seq<Candidate>, pick: Candidate -> bool) returns (c: Candidate)
    requires exists d :: d in pool && pick(d)
    ensures c in pool && pick(c) && Best(pool, pick) == Some(c.deviceId)
    ensures forall d | d in pool && pick(d) :: AtLeast(c, d)
  {
    assert Best(pool, pick).Some?;
    c :| IsBest(pool, pick, c) && Best(pool, pick) == Some(c.deviceId);
    assert IsBest(pool, pick, c);
  }

  /**
   * The elected primary, by its fields: of the candidates that contend it has the highest
   * priority, among those the highest availability, an unknown one being the lowest, and among
   * those the highest id.
   */
  lemma ThePrimaryByFields(candidates: seq<Candidate>, promote: bool) returns (c: Candidate)
    requires exists d :: d in candidates && d.priority > 0
    ensures Elect(candidates, promote).primary == Some(c.deviceId) && Contends(candidates, promote, c)
    ensures forall d | Contends(candidates, promote, d) :: AtLeast(c, d)
  {
    hide Best, AtLeast;
    var eligible := Filter(candidates, Eligible);
    assert forall d :: d in eligible <==> d in candidates && d.priority > 0;
    if exists d :: d in eligible && ClaimsPrimary(d) {
      c := BestByFields(eligible, ClaimsPrimary);
    } else if promote && exists d :: d in eligible && ClaimsSecondary(d) {
      assert Best(eligible, ClaimsPrimary).None?;
      c := BestByFields(eligible, ClaimsSecondary);
    } else {
      assert Best(eligible, ClaimsPrimary).None? && (promote ==> Best(eligible, ClaimsSecondary).None?);
      assert exists d :: d in eligible && Anyone(d);
      c := BestByFields(eligible, Anyone);
    }
  }

  /** The same of the secondary among those that can stand by for that primary. */
  lemma TheSecondaryByFields(candidates: seq<Candidate>, promote: bool, primary: GrainId) returns (c: Candidate)
    requires Elect(candidates, promote).primary == Some(primary)
    requires exists d :: d in candidates && d.priority > 0 && d.deviceId != primary
    ensures Elect(candidates, promote).secondary == Some(c.deviceId) && StandsBy(candidates, primary, c)
    ensures forall d | StandsBy(candidates, primary, d) :: AtLeast(c, d)
  {
    hide Best, AtLeast;
    var rest := Rest(Filter(candidates, Eligible), Some(primary));
    assert forall d :: d in rest <==> d in candidates && d.priority > 0 && d.deviceId != primary;
    if exists d :: d in rest && ClaimsSecondary(d) {
      c := BestByFields(rest, ClaimsSecondary);
    } else {
      assert Best(rest, ClaimsSecondary).None?;
      assert exists d :: d in rest && Anyone(d);
      c := BestByFields(rest, Anyone);
    }
  }

  /** An eligible claimant that no eligible claimant outranks wins, whatever else is claimed. */
  lemma BestClaimantWins(candidates: seq<Candidate>, promote: bool, c: Candidate)
    requires c in candidates && Eligible(c) && c.claimsPrimary
    requires forall d | d in candidates && Eligible(d) && d.claimsPrimary :: !Outranks(d, c)
    ensures Elect(candidates, promote).primary == Some(c.deviceId)
  {
    BestIs(Filter(candidates, Eligible), ClaimsPrimary, c);
  }

  /** The candidate as it stands once it claims exactly what `roles` gives it. */
  function Granted(c: Candidate, roles: Roles): Candidate {
    c.(claimsPrimary := roles.primary == Some(c.deviceId),
       claimsSecondary := roles.secondary == Some(c.deviceId))
  }

  /** The devices in `acted` have taken up what `roles` gives them; the others claim what they claimed. */
  function Now(c: Candidate, acted: set<GrainId>, roles: Roles): Candidate {
    if c.deviceId in acted then Granted(c, roles) else c
  }

  ghost predicate Acted(before: seq<Candidate>, after: seq<Candidate>, acted: set<GrainId>, roles: Roles) {
    && (forall c | c in before :: Now(c, acted, roles) in after)
    && (forall d | d in after :: exists c :: c in before && d == Now(c, acted, roles))
  }

  ghost predicate HasEligibleClaimant(candidates: seq<Candidate>) {
    exists c :: c in candidates && Eligible(c) && c.claimsPrimary
  }

  lemma BestWitness(pool: seq<Candidate>, pick: Candidate -> bool) returns (c: Candidate)
    requires exists d :: d in pool && pick(d)
    ensures IsBest(pool, pick, c) && Best(pool, pick) == Some(c.deviceId)
  {
    assert Best(pool, pick).Some?;
    c :| IsBest(pool, pick, c) && Best(pool, pick) == Some(c.deviceId);
  }

  /** The best of a pool stays the best when some of the pool act, if it still fits and no other device newly does. */
  lemma BestAfter(before: seq<Candidate>, after: seq<Candidate>, acted: set<GrainId>, roles: Roles,
                  pick: Candidate -> bool, c: Candidate)
    requires Acted(before, after, acted, roles)
    requires IsBest(before, pick, c) && pick(Now(c, acted, roles))
    requires forall d | d in before && pick(Now(d, acted, roles)) :: pick(d) || d.deviceId == c.deviceId
    ensures Best(after, pick) == Some(c.deviceId)
  {
    var c' := Now(c, acted, roles);
    assert c' in after && pick(c');
    var w := BestWitness(after, pick);
    assert !Outranks(c', w);
    var o :| o in before && w == Now(o, acted, roles);
    assert o.deviceId != c.deviceId ==> !Outranks(o, c);
  }

  lemma ActedFiltered(before: seq<Candidate>, after: seq<Candidate>, acted: set<GrainId>, roles: Roles,
                      keep: Candidate -> bool)
    requires Acted(before, after, acted, roles)
    requires forall c :: keep(Now(c, acted, roles)) == keep(c)
    ensures Acted(Filter(before, keep), Filter(after, keep), acted, roles)
  {
  }

  function RunnerUp(rest: seq<Candidate>): Option<GrainId> {
    OrElse(Best(rest, ClaimsSecondary), Best(rest, Anyone))
  }

  /** Only the elected device newly claims by acting. */
  lemma NewClaimIsTheElected(c: Candidate, acted: set<GrainId>, roles: Roles)
    ensures ClaimsPrimary(Now(c, acted, roles)) ==> ClaimsPrimary(c) || roles.primary == Some(c.deviceId)
    ensures ClaimsSecondary(Now(c, acted, roles)) ==> ClaimsSecondary(c) || roles.secondary == Some(c.deviceId)
  {
  }

  lemma ClaimedRunnerUpStands(rb: seq<Candidate>, ra: seq<Candidate>, acted: set<GrainId>, roles: Roles, s: Candidate)
    requires Acted(rb, ra, acted, roles)
    requires IsBest(rb, ClaimsSecondary, s) && roles.secondary == Some(s.deviceId)
    ensures Best(ra, ClaimsSecondary) == roles.secondary
  {
    forall d | d in rb && ClaimsSecondary(Now(d, acted, roles)) ensures ClaimsSecondary(d) || d.deviceId == s.deviceId {
      NewClaimIsTheElected(d, acted, roles);
    }
    BestAfter(rb, ra, acted, roles, ClaimsSecondary, s);
  }

  lemma UnclaimedRunnerUpStands(rb: seq<Candidate>, ra: seq<Candidate>, acted: set<GrainId>, roles: Roles, s: Candidate)
    requires Acted(rb, ra, acted, roles)
    requires forall d | d in rb :: !ClaimsSecondary(d)
    requires IsBest(rb, Anyone, s) && roles.secondary == Some(s.deviceId)
    ensures Best(ra, Anyone) == roles.secondary
    ensures forall d | d in ra && ClaimsSecondary(d) :: d.deviceId == s.deviceId
  {
    BestAfter(rb, ra, acted, roles, Anyone, s);
    forall d | d in ra && ClaimsSecondary(d) ensures d.deviceId == s.deviceId {
      var o :| o in rb && d == Now(o, acted, roles);
      NewClaimIsTheElected(o, acted, roles);
    }
  }

  /** The secondary half of the same fact, over the candidates without the primary. */
  lemma RunnerUpStands(rb: seq<Candidate>, ra: seq<Candidate>, acted: set<GrainId>, roles: Roles)
    requires Acted(rb, ra, acted, roles)
    requires roles.secondary == RunnerUp(rb)
    ensures RunnerUp(ra) == roles.secondary
  {
    if Best(rb, ClaimsSecondary).Some? {
      var s := BestWitness(rb, ClaimsSecondary);
      ClaimedRunnerUpStands(rb, ra, acted, roles, s);
    } else if Best(rb, Anyone).Some? {
      var s := BestWitness(rb, Anyone);
      UnclaimedRunnerUpStands(rb, ra, acted, roles, s);
      if Best(ra, ClaimsSecondary).Some? {
        var t := BestWitness(ra, ClaimsSecondary);
        assert t.deviceId == s.deviceId;
      }
    }
  }

  lemma RestActed(eb: seq<Candidate>, ea: seq<Candidate>, acted: set<GrainId>, roles: Roles)
    requires Acted(eb, ea, acted, roles)
    requires roles.secondary == RunnerUp(Rest(eb, roles.primary))
    ensures RunnerUp(Rest(ea, roles.primary)) == roles.secondary
  {
    ActedFiltered(eb, ea, acted, roles, (c: Candidate) => Some(c.deviceId) != roles.primary);
    RunnerUpStands(Rest(eb, roles.primary), Rest(ea, roles.primary), acted, roles);
  }

  /** An eligible claimant that is the elected primary stays elected. */
  lemma PrimaryStands(eb: seq<Candidate>, ea: seq<Candidate>, acted: set<GrainId>, roles: Roles)
    requires Acted(eb, ea, acted, roles)
    requires roles.primary.Some? && Best(eb, ClaimsPrimary) == roles.primary
    ensures Best(ea, ClaimsPrimary) == roles.primary
  {
    var p := BestWitness(eb, ClaimsPrimary);
    forall d | d in eb && ClaimsPrimary(Now(d, acted, roles)) ensures ClaimsPrimary(d) || d.deviceId == p.deviceId {
      NewClaimIsTheElected(d, acted, roles);
    }
    BestAfter(eb, ea, acted, roles, ClaimsPrimary, p);
  }

  /** Acting keeps an eligible claimant, and the primary it elects. */
  lemma PrimaryAfterActing(before: seq<Candidate>, after: seq<Candidate>, acted: set<GrainId>, promote: bool,
                           promote': bool)
    requires HasEligibleClaimant(before)
    requires Acted(before, after, acted, Elect(before, promote))
    ensures HasEligibleClaimant(after)
    ensures Elect(after, promote').primary == Elect(before, promote).primary
  {
    hide Elect, Outranks, Acted;
    var roles := Elect(before, promote);
    var eb, ea := Filter(before, Eligible), Filter(after, Eligible);
    ActedFiltered(before, after, acted, roles, Eligible);
    ClaimantIsElected(before, promote);
    PrimaryStands(eb, ea, acted, roles);
    var p := BestWitness(ea, ClaimsPrimary);
    assert p in after && Eligible(p) && p.claimsPrimary;
    ClaimantIsElected(after, promote');
  }

  /** Acting keeps the secondary, once it keeps the primary. */
  lemma SecondaryAfterActing(before: seq<Candidate>, after: seq<Candidate>, acted: set<GrainId>, promote: bool,
                             promote': bool)
    requires Acted(before, after, acted, Elect(before, promote))
    requires Elect(after, promote').primary == Elect(before, promote).primary
    ensures Elect(after, promote').secondary == Elect(before, promote).secondary
  {
    hide Elect, Outranks, Acted;
    var roles := Elect(before, promote);
    var eb, ea := Filter(before, Eligible), Filter(after, Eligible);
    ActedFiltered(before, after, acted, roles, Eligible);
    SecondaryIsRunnerUp(before, promote);
    SecondaryIsRunnerUp(after, promote');
    RestActed(eb, ea, acted, roles);
  }

  lemma SecondaryIsRunnerUp(candidates: seq<Candidate>, promote: bool)
    ensures var r := Elect(candidates, promote); r.secondary == RunnerUp(Rest(Filter(candidates, Eligible), r.primary))
  {
    hide Outranks, Filter, Best, Rest;
  }

  /**
   * The heart of convergence: while an eligible primary claim exists, no device taking up its
   * elected roles — alone or together with others — changes what is elected.
   */
  lemma ActingDoesNotChangeTheOutcome(before: seq<Candidate>, after: seq<Candidate>, acted: set<GrainId>,
                                      promote: bool, promote': bool)
    requires HasEligibleClaimant(before)
    requires Acted(before, after, acted, Elect(before, promote))
    ensures HasEligibleClaimant(after)
    ensures Elect(after, promote') == Elect(before, promote)
  {
    hide Elect, Acted, HasEligibleClaimant;
    PrimaryAfterActing(before, after, acted, promote, promote');
    SecondaryAfterActing(before, after, acted, promote, promote');
  }

  lemma ClaimantIsElected(candidates: seq<Candidate>, promote: bool)
    requires HasEligibleClaimant(candidates)
    ensures Best(Filter(candidates, Eligible), ClaimsPrimary).Some?
    ensures Elect(candidates, promote).primary == Best(Filter(candidates, Eligible), ClaimsPrimary)
  {
    var c :| c in candidates && Eligible(c) && c.claimsPrimary;
    assert c in Filter(candidates, Eligible) && ClaimsPrimary(c);
  }

  /** `granted` is `candidates` with everyone claiming exactly what `roles` gives. */
  ghost predicate AllGranted(candidates: seq<Candidate>, granted: seq<Candidate>, roles: Roles) {
    && (forall c | c in candidates :: Granted(c, roles) in granted)
    && (forall d | d in granted :: exists c :: c in candidates && d == Granted(c, roles))
  }

  /** Fed back as the claims, an outcome elects itself again, promotion or not. */
  lemma ElectIsAFixpoint(candidates: seq<Candidate>, granted: seq<Candidate>, promote: bool, promote': bool)
    requires AllGranted(candidates, granted, Elect(candidates, promote))
    ensures Elect(granted, promote') == Elect(candidates, promote)
  {
    var roles := Elect(candidates, promote);
    if roles.primary.Some? {
      ElectedClaimsAlone(candidates, granted, promote, promote');
      GrantedRunnerUp(candidates, granted, roles);
    } else {
      NobodyEligible(candidates, granted, promote, promote');
    }
  }

  lemma GrantedRunnerUp(candidates: seq<Candidate>, granted: seq<Candidate>, roles: Roles)
    requires AllGranted(candidates, granted, roles)
    requires roles.secondary == RunnerUp(Rest(Filter(candidates, Eligible), roles.primary))
    ensures RunnerUp(Rest(Filter(granted, Eligible), roles.primary)) == roles.secondary
  {
    var everyone := set c | c in candidates :: c.deviceId;
    forall c | c in candidates ensures Now(c, everyone, roles) == Granted(c, roles) {
      assert c.deviceId in everyone;
    }
    assert Acted(candidates, granted, everyone, roles);
    ActedFiltered(candidates, granted, everyone, roles, Eligible);
    RestActed(Filter(candidates, Eligible), Filter(granted, Eligible), everyone, roles);
  }

  lemma NobodyEligible(candidates: seq<Candidate>, granted: seq<Candidate>, promote: bool, promote': bool)
    requires AllGranted(candidates, granted, Elect(candidates, promote))
    requires Elect(candidates, promote).primary.None?
    ensures Elect(granted, promote') == Elect(candidates, promote) == MESH
  {
    ElectedAreEligible(candidates, promote);
    ElectedAreEligible(granted, promote');
    forall d | d in granted ensures !Eligible(d) {
      var c :| c in candidates && d == Granted(c, Elect(candidates, promote));
    }
  }

  lemma ElectedClaimsAlone(candidates: seq<Candidate>, granted: seq<Candidate>, promote: bool, promote': bool)
    requires Elect(candidates, promote).primary.Some?
    requires AllGranted(candidates, granted, Elect(candidates, promote))
    ensures Elect(granted, promote').primary == Elect(candidates, promote).primary
  {
    var roles := Elect(candidates, promote);
    ElectedAreEligible(candidates, promote);
    var p :| p in candidates && Eligible(p) && p.deviceId == roles.primary.value;
    assert Granted(p, roles) in granted;
    ClaimantIsElected(granted, promote');
    var q := BestWitness(Filter(granted, Eligible), ClaimsPrimary);
    assert q.deviceId == p.deviceId;
  }

  ghost predicate Claimant(peers: seq<Candidate>, c: Candidate) {
    c in peers && Eligible(c) && c.claimsPrimary
  }

  /**
   * When a host, standing among its peers, comes out as primary: it must be eligible; it takes
   * the role anew only from nobody; and it loses a role it claims exactly to a higher-ranked
   * eligible claimant.
   */
  lemma StandingAmongPeers(peers: seq<Candidate>, self: Candidate, promote: bool)
    requires forall c | c in peers :: c.deviceId != self.deviceId
    ensures var wins := Elect(peers + [self], promote).primary == Some(self.deviceId);
            && (wins ==> Eligible(self))
            && (wins && !self.claimsPrimary ==> forall c :: !Claimant(peers, c))
            && (self.claimsPrimary && Eligible(self) ==>
                (wins <==> forall c | Claimant(peers, c) :: !Outranks(c, self)))
  {
    var all := peers + [self];
    ElectedAreEligible(all, promote);
    assert forall c :: c in all <==> c in peers || c == self;
    if HasEligibleClaimant(all) {
      ClaimantIsElected(all, promote);
      var best := BestWitness(Filter(all, Eligible), ClaimsPrimary);
      assert best == self || Claimant(peers, best);
      assert self.claimsPrimary && Eligible(self) ==> self in Filter(all, Eligible) && ClaimsPrimary(self);
      assert forall c | Claimant(peers, c) :: c in Filter(all, Eligible) && ClaimsPrimary(c);
    } else {
      assert forall c | Claimant(peers, c) :: c in all;
      assert self in all;
    }
  }

  // ----- elections nobody's primary claim decides -----

  ghost predicate NoPrimaryClaims(candidates: seq<Candidate>) {
    forall c | c in candidates :: !c.claimsPrimary
  }

  /** `c` is eligible and fits, and no eligible candidate that fits outranks it. */
  ghost predicate BestEligible(candidates: seq<Candidate>, fits: Candidate -> bool, c: Candidate) {
    && c in candidates && Eligible(c) && fits(c)
    && forall d | d in candidates && Eligible(d) && fits(d) :: !Outranks(d, c)
  }

  lemma NobodyClaims(candidates: seq<Candidate>)
    requires NoPrimaryClaims(candidates)
    ensures Best(Filter(candidates, Eligible), ClaimsPrimary).None?
  {
  }

  /** With promotion, the best secondary claimant. */
  lemma PromotedPrimary(candidates: seq<Candidate>, c: Candidate)
    requires NoPrimaryClaims(candidates)
    requires BestEligible(candidates, ClaimsSecondary, c)
    ensures Elect(candidates, true).primary == Some(c.deviceId)
  {
    NobodyClaims(candidates);
    BestIs(Filter(candidates, Eligible), ClaimsSecondary, c);
  }

  /** Without promotion, or with nobody to promote, the best candidate. */
  lemma FreshPrimary(candidates: seq<Candidate>, promote: bool, b: Candidate)
    requires NoPrimaryClaims(candidates)
    requires promote ==> forall c | c in candidates && Eligible(c) :: !ClaimsSecondary(c)
    requires BestEligible(candidates, Anyone, b)
    ensures Elect(candidates, promote).primary == Some(b.deviceId)
  {
    NobodyClaims(candidates);
    BestIs(Filter(candidates, Eligible), Anyone, b);
    assert promote ==> Best(Filter(candidates, Eligible), ClaimsSecondary).None?;
  }

  /** Whoever is best among those that stand by, the elected primary aside, stays the standby. */
  lemma ClaimedSecondary(candidates: seq<Candidate>, promote: bool, d: Candidate)
    requires d in candidates && Eligible(d) && d.claimsSecondary
    requires Elect(candidates, promote).primary != Some(d.deviceId)
    requires forall o | o in candidates && Eligible(o) && o.claimsSecondary && Outranks(o, d) ::
      Elect(candidates, promote).primary == Some(o.deviceId)
    ensures Elect(candidates, promote).secondary == Some(d.deviceId)
  {
    var rest := Rest(Filter(candidates, Eligible), Elect(candidates, promote).primary);
    BestIs(rest, ClaimsSecondary, d);
  }

  /** With no such claimant, the best candidate other than the primary is. */
  lemma FreshSecondary(candidates: seq<Candidate>, promote: bool, d: Candidate)
    requires d in candidates && Eligible(d)
    requires Elect(candidates, promote).primary != Some(d.deviceId)
    requires forall o | o in candidates && Eligible(o) && (o.claimsSecondary || Outranks(o, d)) ::
      Elect(candidates, promote).primary == Some(o.deviceId)
    ensures Elect(candidates, promote).secondary == Some(d.deviceId)
  {
    var rest := Rest(Filter(candidates, Eligible), Elect(candidates, promote).primary);
    BestIs(rest, Anyone, d);
    assert forall o | o in rest :: !ClaimsSecondary(o);
  }
}
